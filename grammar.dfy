/**
 * The recursive-descent parser of `Syntax`, as functions over the lexer's
 * state. Each function takes the state the parser method starts in and gives
 * the node together with the state it leaves, or the first error, which is
 * where an exception would escape. The imperative methods of module Syntax
 * are proved to compute exactly these functions.
 *
 * Every production that succeeds reads its tokens off the lexer, so the
 * recursion decreases `Scanner.Measure` of the state, then a rank that
 * orders the productions that call each other without reading anything.
 */
module Grammar {
  import opened Wrappers
  import opened Chars
  import opened Tokens
  import opened Scanner
  import opened Ast

  /** A production's outcome: the node and the lexer state after it, or the exception. */
  datatype Parsed<+T> = Ok(value: T, rest: Cursor) | Fail(error: ParseError) {
    predicate IsFailure() { Fail? }

    function PropagateFailure<U>(): Parsed<U>
      requires Fail?
    {
      Fail(error)
    }

    function Extract(): (T, Cursor)
      requires Ok?
    {
      (value, rest)
    }
  }

  /** `BinaryOperatorPriorityTable`, indexed by `token - Plus`: a lower number binds tighter. */
  const PriorityTable: seq<int> := [3, 3, 2, 2, 1]

  /** The operator test of `ParseBinaryExpression`: one of the five tokens the table covers. */
  predicate IsBinaryOperator(t: Token) {
    t.Plus? || t.Minus? || t.Mul? || t.Div? || t.Power?
  }

  /** The table entry of an operator token. */
  function PriorityOf(t: Token): int
    requires IsBinaryOperator(t)
  {
    match t
    case Plus => 3
    case Minus => 3
    case Mul => 2
    case Div => 2
    case Power => 1
  }

  /** The priority of a node's operator, through the same table. */
  function OpPriority(op: BinaryOp): int {
    PriorityTable[BinaryOpOrdinal(op)]
  }

  /** `BinaryOp.Plus + (tOpt - Lexer.Token.Plus)`: the node operator for an operator token. */
  function NodeOperator(t: Token): (op: BinaryOp)
    requires IsBinaryOperator(t)
    ensures OpPriority(op) == PriorityOf(t)
  {
    match t
    case Plus => BinaryOp.Plus
    case Minus => BinaryOp.Minus
    case Mul => BinaryOp.Mul
    case Div => BinaryOp.Div
    case Power => BinaryOp.Power
  }

  /**
   * The source's arithmetic on enum values: the operator test is the range
   * check `Plus <= t < Plus + Length`, the priority is the table entry at
   * `t - Plus`, and the node operator is `BinaryOp.Plus + (t - Plus)`.
   */
  lemma OperatorArithmetic(t: Token)
    ensures IsBinaryOperator(t) <==> Ordinal(Token.Plus) <= Ordinal(t) < Ordinal(Token.Plus) + |PriorityTable|
    ensures IsBinaryOperator(t) ==> PriorityOf(t) == PriorityTable[Ordinal(t) - Ordinal(Token.Plus)]
    ensures IsBinaryOperator(t) ==> NodeOperator(t) == BinaryOpOf(Ordinal(t) - Ordinal(Token.Plus))
  {
  }

  /** The current token is an operator of priority at most p. */
  predicate OperatorWithin(t: Token, p: int) {
    IsBinaryOperator(t) && PriorityOf(t) <= p
  }

  /** `Lex.Line` in a state. */
  function LineOf(s: Cursor): int {
    LineAt(s.input, s.position)
  }

  /** t is s or a later state of the same input. */
  predicate Within(s: Cursor, t: Cursor) {
    t.input == s.input && Measure(t) <= Measure(s)
  }

  /** t is a later state of the same input and at least one token has been read. */
  predicate Beyond(s: Cursor, t: Cursor) {
    t.input == s.input && Measure(t) < Measure(s)
  }

  /** `throw new SyntaxException(..., "expect {0}, but found {1}.")`, raised in state s. */
  function ExpectError<T>(s: Cursor, t: Token): Parsed<T> {
    Fail(SyntaxException(s.position, LineOf(s), RowCounter,
                         ExpectBut(t, FormatCurrentToken(s))))
  }

  /** `throw new SyntaxException(..., "unexpected token {0}.")`, raised in state s. */
  function UnexpectedError<T>(s: Cursor): Parsed<T> {
    Fail(SyntaxException(s.position, LineOf(s), RowCounter, UnexpectedToken(FormatCurrentToken(s))))
  }

  /** `Lex.Next()` as a step of the parser: a lexical exception escapes. */
  function Advance(s: Cursor): (r: Parsed<()>)
    ensures r.Ok? ==> Within(s, r.rest)
    ensures r.Ok? && s.token != EOF ==> Beyond(s, r.rest)
  {
    match Scanner.Next(s)
    case Success(s') => Ok((), s')
    case Failure(e) => Fail(e)
  }

  /** `MatchToken`. */
  function MatchToken(s: Cursor, t: Token): (r: Parsed<()>)
    ensures r.Ok? ==> s.token == t && Within(s, r.rest)
    ensures r.Ok? && t != EOF ==> Beyond(s, r.rest)
  {
    if s.token != t then ExpectError(s, t) else Advance(s)
  }

  /** `MatchIdentifier`: the identifier as written. */
  function MatchIdentifier(s: Cursor): (r: Parsed<Text>)
    ensures r.Ok? ==> s.token == Identifier && r.value == s.id && Beyond(s, r.rest)
  {
    if s.token != Identifier then ExpectError(s, Identifier)
    else
      var a :- Advance(s);
      Ok(s.id, a.1)
  }

  /** `TryMatchToken`: whether the token was there. */
  function TryMatchToken(s: Cursor, t: Token): (r: Parsed<bool>)
    ensures r.Ok? ==> Within(s, r.rest)
    ensures r.Ok? && r.value && t != EOF ==> Beyond(s, r.rest)
  {
    if s.token != t then Ok(false, s)
    else
      var a :- Advance(s);
      Ok(true, a.1)
  }

  /** `TryMatchIdentifier`: whether an identifier was there, and its text (empty when not). */
  function TryMatchIdentifier(s: Cursor): (r: Parsed<(bool, Text)>)
    ensures r.Ok? ==> Within(s, r.rest)
    ensures r.Ok? && r.value.0 ==> Beyond(s, r.rest)
  {
    if s.token != Identifier then Ok((false, []), s)
    else
      var a :- Advance(s);
      Ok((true, s.id), a.1)
  }

  /** `ParseExpression`: a binary expression from priority `Length - 1`, which is 4. */
  function ParseExpression(s: Cursor): (r: Parsed<Expression>)
    ensures r.Ok? ==> Beyond(s, r.rest) && WellFormed(r.value) && !IsBinaryOperator(r.rest.token)
    decreases Measure(s), 7
  {
    ParseBinary(s, |PriorityTable| - 1)
  }

  /**
   * `ParseBinaryExpression(Lex, Priority)`: the left operand one level down; then,
   * when an operator of priority at most `priority` follows, the loop, run at
   * that operator's priority.
   */
  function ParseBinary(s: Cursor, priority: nat): (r: Parsed<Expression>)
    ensures r.Ok? ==> Beyond(s, r.rest) && WellFormed(r.value) && !OperatorWithin(r.rest.token, priority)
    decreases Measure(s), priority + 2
  {
    if priority == 0 then ParseUnary(s)
    else
      var l :- ParseBinary(s, priority - 1);
      var s1 := l.1;
      if IsBinaryOperator(s1.token) then
        var tPriority := PriorityOf(s1.token);
        if tPriority > priority then Ok(l.0, s1)
        else BinaryLoop(s1, l.0, tPriority)
      else Ok(l.0, s1)
  }

  /**
   * The loop of `ParseBinaryExpression`: while the current operator has the
   * loop's priority, read it and the right operand one level down, and make
   * the expression so far the left child of the new node. `left` is on the
   * left spine of the result, so operators of one priority group to the left.
   */
  function BinaryLoop(s: Cursor, left: Expression, priority: nat): (r: Parsed<Expression>)
    requires 1 <= priority && WellFormed(left) && !OperatorWithin(s.token, priority - 1)
    ensures r.Ok? ==> Within(s, r.rest) && WellFormed(r.value) && !OperatorWithin(r.rest.token, priority)
    ensures r.Ok? ==> LeftSpine(r.value, left, priority)
    decreases Measure(s), priority + 1
  {
    var tOpt := s.token;
    if !(IsBinaryOperator(tOpt) && PriorityOf(tOpt) == priority) then Ok(left, s)
    else
      var a :- Advance(s);
      var right :- ParseBinary(a.1, priority - 1);
      var node := Expression.BinaryExpression(LineOf(right.1), NodeOperator(tOpt), left, right.0);
      var r := BinaryLoop(right.1, node, priority);
      if r.Ok? then LeftSpineGrows(r.value, node, priority); r else r
  }

  /** One round of the loop, for a caller that has taken the step itself. */
  lemma BinaryLoopStep(s: Cursor, left: Expression, priority: nat, s2: Cursor, right: Expression, s3: Cursor)
    requires 1 <= priority && WellFormed(left) && !OperatorWithin(s.token, priority - 1)
    requires IsBinaryOperator(s.token) && PriorityOf(s.token) == priority
    requires Advance(s) == Ok((), s2) && ParseBinary(s2, priority - 1) == Ok(right, s3)
    ensures BinaryLoop(s, left, priority) ==
            BinaryLoop(s3, Expression.BinaryExpression(LineOf(s3), NodeOperator(s.token), left, right), priority)
  {
  }

  /** e is `left`, or a node of the given priority whose left child has this property. */
  predicate LeftSpine(e: Expression, left: Expression, priority: int) {
    e == left ||
    (e.BinaryExpression? && OpPriority(e.binaryOperator) == priority && LeftSpine(e.left, left, priority))
  }

  /** A spine over a node of the spine's priority is a spine over that node's left child. */
  lemma {:induction false} LeftSpineGrows(e: Expression, node: Expression, priority: int)
    requires node.BinaryExpression? && OpPriority(node.binaryOperator) == priority
    requires LeftSpine(e, node, priority)
    ensures LeftSpine(e, node.left, priority)
  {
    if e != node {
      LeftSpineGrows(e.left, node, priority);
    }
  }

  /** `ParseUnaryExpression`: an optional `-` before exactly one atom. */
  function ParseUnary(s: Cursor): (r: Parsed<Expression>)
    ensures r.Ok? ==> Beyond(s, r.rest) && WellFormed(r.value)
    decreases Measure(s), 1
  {
    var m :- TryMatchToken(s, Token.Minus);
    if m.0 then
      var a :- ParseAtom(m.1);
      Ok(Expression.UnaryExpression(LineOf(m.1), Negative, a.0), a.1)
    else ParseAtom(m.1)
  }

  /**
   * `ParseAtomExpression`: a literal, a symbol, a call expression, or a
   * bracket; any other token is unexpected.
   */
  function ParseAtom(s: Cursor): (r: Parsed<Expression>)
    ensures r.Ok? ==> Beyond(s, r.rest) && WellFormed(r.value)
    decreases Measure(s), 0
  {
    if s.token == Token.DigitLiteral then
      var node := Expression.DigitLiteral(LineOf(s), s.digit);
      var a :- Advance(s);
      Ok(node, a.1)
    else if s.token == Identifier then
      var id :- MatchIdentifier(s);
      var b :- TryMatchToken(id.1, LeftBracket);
      if b.0 then
        var al :- ParseArgList(b.1);
        var c :- MatchToken(al.1, RightBracket);
        Ok(NewCallExpression(LineOf(c.1), id.0, al.0), c.1)
      else Ok(NewSymbolExpression(LineOf(b.1), id.0), b.1)
    else
      var b :- TryMatchToken(s, LeftBracket);
      if b.0 then
        var e :- ParseBracket(b.1);
        var c :- MatchToken(e.1, RightBracket);
        Ok(e.0, c.1)
      else UnexpectedError(b.1)
  }

  /** `ParseArgList`, entered after `(`: empty when `)` follows, else the loop. */
  function ParseArgList(s: Cursor): (r: Parsed<ArgList>)
    ensures r.Ok? ==> Within(s, r.rest) && WellFormedArgs(r.value) && r.rest.token == RightBracket
    ensures s.token == RightBracket ==> r == Ok(ArgList.ArgList([]), s)
    ensures s.token != RightBracket && r.Ok? ==> |r.value.args| >= 1
    decreases Measure(s), 9
  {
    if s.token != RightBracket then ArgLoop(s, [])
    else Ok(ArgList.ArgList([]), s)
  }

  /**
   * The loop of `ParseArgList`: an expression, then `,` and another round,
   * or a `)` left for the caller; anything else is unexpected.
   */
  function ArgLoop(s: Cursor, acc: seq<Expression>): (r: Parsed<ArgList>)
    requires forall i | 0 <= i < |acc| :: WellFormed(acc[i])
    ensures r.Ok? ==> Beyond(s, r.rest) && WellFormedArgs(r.value) && r.rest.token == RightBracket
    ensures r.Ok? ==> |r.value.args| > |acc| && r.value.args[..|acc|] == acc
    decreases Measure(s), 8
  {
    var e :- ParseExpression(s);
    var args := acc + [e.0];
    AppendWellFormed(acc, e.0);
    var c :- TryMatchToken(e.1, Comma);
    if c.0 then
      var r := ArgLoop(c.1, args);
      if r.Ok? then PrefixOfExtension(r.value.args, acc, e.0); r else r
    else if c.1.token == RightBracket then Ok(ArgList.ArgList(args), c.1)
    else UnexpectedError(c.1)
  }

  lemma AppendWellFormed(acc: seq<Expression>, e: Expression)
    requires forall i | 0 <= i < |acc| :: WellFormed(acc[i])
    requires WellFormed(e)
    ensures forall i | 0 <= i < |acc + [e]| :: WellFormed((acc + [e])[i])
  {
  }

  lemma PrefixOfExtension<T>(xs: seq<T>, acc: seq<T>, x: T)
    requires |xs| >= |acc| + 1 && xs[..|acc| + 1] == acc + [x]
    ensures |xs| > |acc| && xs[..|acc|] == acc
  {
    assert xs[..|acc|] == xs[..|acc| + 1][..|acc|];
  }

  /**
   * `ParseBracketExpression`, entered after `(`: one expression stands for
   * itself; with more, a tuple of all of them, in order.
   */
  function ParseBracket(s: Cursor): (r: Parsed<Expression>)
    ensures r.Ok? ==> Beyond(s, r.rest) && WellFormed(r.value) && r.rest.token == RightBracket
    decreases Measure(s), 9
  {
    var first :- ParseExpression(s);
    if first.1.token != RightBracket then TupleLoop(first.1, LineOf(first.1), [first.0])
    else Ok(first.0, first.1)
  }

  /** The loop of `ParseBracketExpression`: `,` and an expression, until `)`. */
  function TupleLoop(s: Cursor, line: int, acc: seq<Expression>): (r: Parsed<Expression>)
    requires |acc| >= 1 && forall i | 0 <= i < |acc| :: WellFormed(acc[i])
    ensures r.Ok? ==> Beyond(s, r.rest) && WellFormed(r.value) && r.rest.token == RightBracket
    ensures r.Ok? ==> r.value.TupleExpression? && r.value.lineNumber == line &&
                      |r.value.args| > |acc| && r.value.args[..|acc|] == acc
    decreases Measure(s), 8
  {
    var c :- MatchToken(s, Comma);
    var e :- ParseExpression(c.1);
    var args := acc + [e.0];
    AppendWellFormed(acc, e.0);
    if e.1.token == Comma then
      var r := TupleLoop(e.1, line, args);
      if r.Ok? then PrefixOfExtension(r.value.args, acc, e.0); r else r
    else if e.1.token == RightBracket then Ok(Expression.TupleExpression(line, args), e.1)
    else UnexpectedError(e.1)
  }

  /** `ParseStatement`: a for statement, an assignment or a call, or nothing. */
  function ParseStatement(s: Cursor): (r: Parsed<Option<Statement>>)
    ensures r.Ok? ==> Within(s, r.rest)
    ensures r.Ok? && r.value.Some? ==> Beyond(s, r.rest) && WellFormedStatement(r.value.value)
    decreases Measure(s), 1
  {
    if s.token == For then
      var f :- ParseForStatement(s);
      Ok(Some(f.0), f.1)
    else if s.token == Identifier then
      var a :- ParseAssignmentOrCall(s);
      Ok(Some(a.0), a.1)
    else Ok(None, s)
  }

  /** `ParseStatementList`: statements as long as one starts. */
  function ParseStatementList(s: Cursor): (r: Parsed<StatementList>)
    ensures r.Ok? ==> Within(s, r.rest) && WellFormedList(r.value)
    ensures r.Ok? ==> r.rest.token != For && r.rest.token != Identifier
    decreases Measure(s), 3
  {
    StatementLoop(s, [])
  }

  /** The loop of `ParseStatementList`, with the statements read so far. */
  function StatementLoop(s: Cursor, acc: seq<Statement>): (r: Parsed<StatementList>)
    requires forall i | 0 <= i < |acc| :: WellFormedStatement(acc[i])
    ensures r.Ok? ==> Within(s, r.rest) && WellFormedList(r.value)
    ensures r.Ok? ==> r.rest.token != For && r.rest.token != Identifier
    ensures r.Ok? ==> |r.value.statements| >= |acc| && r.value.statements[..|acc|] == acc
    decreases Measure(s), 2
  {
    var st :- ParseStatement(s);
    match st.0
    case None => Ok(StatementList.StatementList(acc), st.1)
    case Some(x) =>
      AppendWellFormedStatement(acc, x);
      var r := StatementLoop(st.1, acc + [x]);
      if r.Ok? then PrefixOfExtension(r.value.statements, acc, x); r else r
  }

  lemma AppendWellFormedStatement(acc: seq<Statement>, x: Statement)
    requires forall i | 0 <= i < |acc| :: WellFormedStatement(acc[i])
    requires WellFormedStatement(x)
    ensures forall i | 0 <= i < |acc + [x]| :: WellFormedStatement((acc + [x])[i])
  {
  }

  /** `ParseBlock`: `{` list `}`, or exactly one statement. */
  function ParseBlock(s: Cursor): (r: Parsed<StatementList>)
    ensures r.Ok? ==> Beyond(s, r.rest) && WellFormedList(r.value)
    decreases Measure(s), 2
  {
    var b :- TryMatchToken(s, LeftBrace);
    if b.0 then
      var l :- ParseStatementList(b.1);
      var c :- MatchToken(l.1, RightBrace);
      Ok(l.0, c.1)
    else
      var st :- ParseStatement(b.1);
      match st.0
      case Some(x) => Ok(StatementList.StatementList([x]), st.1)
      case None => UnexpectedError(st.1)
  }

  /**
   * `ParseForStatement`: `for ID from E to E [step E] block`, numbered with
   * the line of the `for`.
   */
  function ParseForStatement(s: Cursor): (r: Parsed<Statement>)
    ensures r.Ok? ==> Beyond(s, r.rest) && WellFormedStatement(r.value) && r.value.ForStatement?
    ensures r.Ok? ==> s.token == For && r.value.lineNumber == LineOf(s)
    decreases Measure(s), 0
  {
    var line := LineOf(s);
    var a :- MatchToken(s, For);
    var id :- MatchIdentifier(a.1);
    var b :- MatchToken(id.1, From);
    ForBounds(b.1, line, id.0)
  }

  /** `ParseForStatement` after `for ID from`: the two bounds, then the rest. */
  function ForBounds(s: Cursor, line: int, id: Text): (r: Parsed<Statement>)
    ensures r.Ok? ==> Beyond(s, r.rest) && WellFormedStatement(r.value) && r.value.ForStatement?
    ensures r.Ok? ==> r.value.lineNumber == line && r.value.identifier == id
    decreases Measure(s), 8
  {
    var from :- ParseExpression(s);
    var c :- MatchToken(from.1, To);
    var to :- ParseExpression(c.1);
    ForTail(to.1, line, id, from.0, to.0)
  }

  /** The rest of `ParseForStatement`: the optional `step E`, then the block. */
  function ForTail(s: Cursor, line: int, id: Text, from: Expression, to: Expression): (r: Parsed<Statement>)
    ensures r.Ok? ==> Within(s, r.rest) && r.value.ForStatement?
    ensures r.Ok? ==> r.value.lineNumber == line && r.value.identifier == id &&
                      r.value.fromExpression == from && r.value.toExpression == to
    ensures r.Ok? ==> (r.value.stepExpression.Some? <==> s.token == Step)
    ensures r.Ok? && WellFormed(from) && WellFormed(to) ==> WellFormedStatement(r.value)
    decreases Measure(s), 9
  {
    var step :- OptionalStep(s);
    var block :- ParseBlock(step.1);
    Ok(NewForStatement(line, id, from, to, step.0, block.0), block.1)
  }

  /** `step E` when the current token is `step`, else no step (the field stays null). */
  function OptionalStep(s: Cursor): (r: Parsed<Option<Expression>>)
    ensures r.Ok? ==> Within(s, r.rest) && (r.value.Some? <==> s.token == Step)
    ensures r.Ok? && r.value.Some? ==> WellFormed(r.value.value)
    decreases Measure(s), 8
  {
    var st :- TryMatchToken(s, Step);
    if st.0 then
      var e :- ParseExpression(st.1);
      Ok(Some(e.0), e.1)
    else Ok(None, st.1)
  }


  /**
   * `ParseAssignmentOrCall`: after the identifier, `(` args `)` `;` is a call
   * and `is` E `;` an assignment; anything else is unexpected.
   */
  function ParseAssignmentOrCall(s: Cursor): (r: Parsed<Statement>)
    ensures r.Ok? ==> Beyond(s, r.rest) && WellFormedStatement(r.value)
    ensures r.Ok? ==> r.value.Assignment? || r.value.Call?
    decreases Measure(s), 0
  {
    var id :- MatchIdentifier(s);
    var b :- TryMatchToken(id.1, LeftBracket);
    if b.0 then CallTail(b.1, LineOf(b.1), id.0)
    else
      var i :- TryMatchToken(b.1, Is);
      if i.0 then AssignmentTail(i.1, LineOf(i.1), id.0)
      else UnexpectedError(i.1)
  }

  /** The rest of a call statement after `ID (`: the arguments, `)` and `;`. */
  function CallTail(s: Cursor, line: int, id: Text): (r: Parsed<Statement>)
    ensures r.Ok? ==> Beyond(s, r.rest) && WellFormedStatement(r.value) && r.value.Call?
    decreases Measure(s), 10
  {
    var al :- ParseArgList(s);
    var c :- MatchToken(al.1, RightBracket);
    var d :- MatchToken(c.1, Semico);
    Ok(NewCall(line, id, al.0), d.1)
  }

  /** The rest of an assignment after `ID is`: the expression and `;`. */
  function AssignmentTail(s: Cursor, line: int, id: Text): (r: Parsed<Statement>)
    ensures r.Ok? ==> Beyond(s, r.rest) && WellFormedStatement(r.value) && r.value.Assignment?
    decreases Measure(s), 8
  {
    var e :- ParseExpression(s);
    var d :- MatchToken(e.1, Semico);
    Ok(NewAssignment(line, id, e.0), d.1)
  }


  /** `Parse`: read the first token, a statement list, and then nothing but `EOF`. */
  function Parse(s: Cursor): (r: Parsed<StatementList>)
    ensures r.Ok? ==> r.rest.input == s.input && r.rest.token == EOF && WellFormedList(r.value)
  {
    var a :- Advance(s);
    var l :- ParseStatementList(a.1);
    if l.1.token != EOF then UnexpectedError(l.1)
    else Ok(l.0, l.1)
  }

  /** A whole program text, from a fresh lexer. */
  function ParseText(input: Text): Parsed<StatementList> {
    Parse(Start(input))
  }
}
