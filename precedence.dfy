/**
 * Precedence and associativity of `ParseBinaryExpression`, for every input.
 *
 * The binary layer of the parser, seen from the token stream, reads a flat
 * chain: a unary operand, then, as long as an operator of at most the
 * starting priority follows, that operator and another unary operand.
 * `Build` is the textbook reading of such a chain: the root is the last of
 * the loosest operators, its left child the chain before it and its right
 * child the chain after it. `BinaryMatches` proves that the nested,
 * level-by-level recursion of the parser builds exactly that tree, so
 * `**` binds tighter than `*` and `/`, which bind tighter than `+` and `-`,
 * and operators of one priority group to the left.
 */
module Precedence {
  import opened Wrappers
  import opened Tokens
  import opened Scanner
  import opened Ast
  import opened Grammar

  /**
   * Operands and operators in reading order: `operators[i]` stands between
   * `operands[i]` and `operands[i + 1]`, and `lines[i]` is the lexer's line
   * once `operands[i]` has been read.
   */
  datatype Chain = Chain(operands: seq<Expression>, operators: seq<BinaryOp>, lines: seq<int>)

  predicate ValidChain(c: Chain) {
    |c.operands| >= 1 && |c.operators| == |c.operands| - 1 && |c.lines| == |c.operands|
  }

  function LastLine(c: Chain): int
    requires ValidChain(c)
  {
    c.lines[|c.lines| - 1]
  }

  /** A chain of one operand. */
  function Single(e: Expression, line: int): Chain {
    Chain([e], [], [line])
  }

  /** `pre`, then `op`, then `c`. */
  function Join(pre: Chain, op: BinaryOp, c: Chain): Chain {
    Chain(pre.operands + c.operands, pre.operators + [op] + c.operators, pre.lines + c.lines)
  }

  /**
   * The place of the root operator: the last of the loosest operators, so
   * every operator is at most as loose and every later one strictly tighter.
   */
  function LastLoosest(ops: seq<BinaryOp>): (k: nat)
    requires |ops| > 0
    ensures k < |ops|
    ensures forall i | 0 <= i < |ops| :: OpPriority(ops[i]) <= OpPriority(ops[k])
    ensures forall i | k < i < |ops| :: OpPriority(ops[i]) < OpPriority(ops[k])
  {
    if |ops| == 1 then 0
    else
      var k := LastLoosest(ops[..|ops| - 1]);
      if OpPriority(ops[|ops| - 1]) >= OpPriority(ops[k]) then |ops| - 1 else k
  }

  predicate AllWellFormed(es: seq<Expression>) {
    forall i | 0 <= i < |es| :: WellFormed(es[i])
  }

  /**
   * The tree of a chain: split at the last loosest operator, each node
   * numbered with the line after its last operand.
   */
  function Build(c: Chain): (e: Expression)
    requires ValidChain(c)
    ensures AllWellFormed(c.operands) ==> WellFormed(e)
    decreases |c.operands|
  {
    if |c.operators| == 0 then c.operands[0]
    else
      var k := LastLoosest(c.operators);
      Expression.BinaryExpression(
        LastLine(c), c.operators[k],
        Build(Chain(c.operands[..k + 1], c.operators[..k], c.lines[..k + 1])),
        Build(Chain(c.operands[k + 1..], c.operators[k + 1..], c.lines[k + 1..])))
  }

  /**
   * Appending an operator and a chain of strictly tighter operators to a
   * chain of operators no looser than it puts that operator at the root,
   * with the whole chain before it on the left: tighter operators group
   * first, and equal ones to the left.
   */
  lemma BuildJoin(pre: Chain, op: BinaryOp, c: Chain)
    requires ValidChain(pre) && ValidChain(c)
    requires forall i | 0 <= i < |pre.operators| :: OpPriority(pre.operators[i]) <= OpPriority(op)
    requires forall i | 0 <= i < |c.operators| :: OpPriority(c.operators[i]) < OpPriority(op)
    ensures ValidChain(Join(pre, op, c))
    ensures Build(Join(pre, op, c)) == Expression.BinaryExpression(LastLine(c), op, Build(pre), Build(c))
  {
    var j := Join(pre, op, c);
    var n := |pre.operators|;
    var k := LastLoosest(j.operators);
    assert j.operators[n] == op;
    assert forall i | n < i < |j.operators| :: j.operators[i] == c.operators[i - n - 1];
    assert k == n;
    assert j.operands[..k + 1] == pre.operands;
    assert j.operators[..k] == pre.operators;
    assert j.lines[..k + 1] == pre.lines;
    assert j.operands[k + 1..] == c.operands;
    assert j.operators[k + 1..] == c.operators;
    assert j.lines[k + 1..] == c.lines;
  }

  /** What a chain read at priority p in state s keeps: its operators are at most p, its operands well formed. */
  predicate ChainOf(c: Chain, p: int, s: Cursor) {
    ValidChain(c) && LastLine(c) == LineOf(s) &&
    (forall i | 0 <= i < |c.operators| :: OpPriority(c.operators[i]) <= p) &&
    AllWellFormed(c.operands)
  }

  lemma JoinKeeps(pre: Chain, op: BinaryOp, c: Chain, p: int, s: Cursor, s': Cursor)
    ensures ChainOf(pre, p, s) && ChainOf(c, p, s') && OpPriority(op) <= p ==> ChainOf(Join(pre, op, c), p, s')
  {
    var j := Join(pre, op, c);
    var n := |pre.operators|;
    assert forall i | 0 <= i < |j.operators| ::
        j.operators[i] == (if i < n then pre.operators[i] else if i == n then op else c.operators[i - n - 1]);
    assert forall i | 0 <= i < |j.operands| ::
        j.operands[i] == (if i < |pre.operands| then pre.operands[i] else c.operands[i - |pre.operands|]);
  }

  /**
   * The flat reading, from a state after an operand: while an operator of
   * priority at most p follows, read it and one more unary operand.
   */
  function ChainLoop(s: Cursor, p: nat, acc: Chain): (r: Parsed<Chain>)
    ensures r.Ok? ==> Within(s, r.rest) && !OperatorWithin(r.rest.token, p)
    ensures r.Ok? && ChainOf(acc, p, s) ==> ChainOf(r.value, p, r.rest)
    decreases Measure(s)
  {
    if OperatorWithin(s.token, p) then
      var a :- Advance(s);
      var u :- ParseUnary(a.1);
      JoinKeeps(acc, NodeOperator(s.token), Single(u.0, LineOf(u.1)), p, s, u.1);
      ChainLoop(u.1, p, Join(acc, NodeOperator(s.token), Single(u.0, LineOf(u.1))))
    else Ok(acc, s)
  }

  /** The chain the binary layer at priority p reads from s: a unary operand, then the loop. */
  function Operands(s: Cursor, p: nat): (r: Parsed<Chain>)
    ensures r.Ok? ==> Beyond(s, r.rest) && !OperatorWithin(r.rest.token, p) && ChainOf(r.value, p, r.rest)
  {
    var u :- ParseUnary(s);
    ChainLoop(u.1, p, Single(u.0, LineOf(u.1)))
  }

  /** A read chain as the tree `Build` makes of it; an exception passes through. */
  function Built(r: Parsed<Chain>): Parsed<Expression>
    requires r.Ok? ==> ValidChain(r.value)
  {
    match r
    case Ok(c, rest) => Ok(Build(c), rest)
    case Fail(e) => Fail(e)
  }

  /** Carry on reading at priority p after a chain that has been read. */
  function Continue(r: Parsed<Chain>, p: nat): Parsed<Chain> {
    match r
    case Ok(c, rest) => ChainLoop(rest, p, c)
    case Fail(e) => Fail(e)
  }

  /** A read chain with `pre` and `op` put in front of it. */
  function Prefixed(pre: Chain, op: BinaryOp, r: Parsed<Chain>): Parsed<Chain> {
    match r
    case Ok(c, rest) => Ok(Join(pre, op, c), rest)
    case Fail(e) => Fail(e)
  }

  /** Reading at priority p is reading at p - 1 and then going on at p. */
  lemma {:induction false} ChainLoopSplit(s: Cursor, p: nat, acc: Chain)
    requires p >= 1
    ensures ChainLoop(s, p, acc) == Continue(ChainLoop(s, p - 1, acc), p)
    decreases Measure(s)
  {
    if OperatorWithin(s.token, p - 1) {
      match Advance(s)
      case Fail(_) =>
      case Ok(_, a) =>
        match ParseUnary(a)
        case Fail(_) =>
        case Ok(u, s2) =>
          ChainLoopSplit(s2, p, Join(acc, NodeOperator(s.token), Single(u, LineOf(s2))));
    }
  }

  lemma JoinAssociates(pre: Chain, op: BinaryOp, acc: Chain, op': BinaryOp, c: Chain)
    ensures Join(Join(pre, op, acc), op', c) == Join(pre, op, Join(acc, op', c))
  {
    assert (pre.operands + acc.operands) + c.operands == pre.operands + (acc.operands + c.operands);
    assert (pre.operators + [op] + acc.operators) + [op'] + c.operators ==
           pre.operators + [op] + (acc.operators + [op'] + c.operators);
    assert (pre.lines + acc.lines) + c.lines == pre.lines + (acc.lines + c.lines);
  }

  /** What has been read before does not change how the loop goes on. */
  lemma {:induction false} ChainLoopPrefix(s: Cursor, p: nat, pre: Chain, op: BinaryOp, acc: Chain)
    ensures ChainLoop(s, p, Join(pre, op, acc)) == Prefixed(pre, op, ChainLoop(s, p, acc))
    decreases Measure(s)
  {
    if OperatorWithin(s.token, p) {
      match Advance(s)
      case Fail(_) =>
      case Ok(_, a) =>
        match ParseUnary(a)
        case Fail(_) =>
        case Ok(u, s2) =>
          var one := Single(u, LineOf(s2));
          JoinAssociates(pre, op, acc, NodeOperator(s.token), one);
          ChainLoopPrefix(s2, p, pre, op, Join(acc, NodeOperator(s.token), one));
    }
  }

  /** The chain at priority p is the chain at p - 1 read on at p. */
  lemma OperandsSplit(s: Cursor, p: nat)
    requires p >= 1
    ensures Operands(s, p) == Continue(Operands(s, p - 1), p)
  {
    match ParseUnary(s)
    case Fail(_) =>
    case Ok(u, s1) =>
      ChainLoopSplit(s1, p, Single(u, LineOf(s1)));
  }

  /**
   * One round of the loop at priority p, after its operator: the operand
   * chain at p - 1 is appended behind the operator, and reading goes on.
   */
  lemma LoopRound(s: Cursor, p: nat, acc: Chain, a: Cursor)
    requires p >= 1 && OperatorWithin(s.token, p) && Advance(s) == Ok((), a)
    ensures ChainLoop(s, p, acc) == Continue(Prefixed(acc, NodeOperator(s.token), Operands(a, p - 1)), p)
  {
    match ParseUnary(a)
    case Fail(_) =>
    case Ok(u, s2) =>
      var one := Single(u, LineOf(s2));
      ChainLoopSplit(s2, p, Join(acc, NodeOperator(s.token), one));
      ChainLoopPrefix(s2, p - 1, acc, NodeOperator(s.token), one);
  }

  /**
   * `ParseBinaryExpression(Lex, Priority)` builds, for every input, the tree
   * `Build` makes of the chain read at that priority, and stops where the
   * chain stops; both fail with the same exception.
   */
  lemma {:induction false} BinaryMatches(s: Cursor, p: nat)
    ensures ParseBinary(s, p) == Built(Operands(s, p))
    decreases p, 1, 0
  {
    if p == 0 {
      assert ParseBinary(s, 0) == ParseUnary(s);
    } else {
      BinaryMatches(s, p - 1);
      OperandsSplit(s, p);
      match Operands(s, p - 1)
      case Fail(e) =>
        LevelFails(s, p, e);
      case Ok(c, s1) =>
        LevelStep(s, p, Build(c), s1);
        if OperatorWithin(s1.token, p) {
          LoopMatches(s1, c, p);
        }
    }
  }

  /** A level fails where the level below it fails. */
  lemma LevelFails(s: Cursor, p: nat, e: ParseError)
    requires p >= 1 && ParseBinary(s, p - 1) == Fail(e)
    ensures ParseBinary(s, p) == Fail(e)
  {
  }

  /** After the level below, a level runs the loop at its own priority when an operator of that priority follows. */
  lemma LevelStep(s: Cursor, p: nat, l: Expression, s1: Cursor)
    requires p >= 1 && ParseBinary(s, p - 1) == Ok(l, s1)
    ensures OperatorWithin(s1.token, p) ==> PriorityOf(s1.token) == p && ParseBinary(s, p) == BinaryLoop(s1, l, p)
    ensures !OperatorWithin(s1.token, p) ==> ParseBinary(s, p) == Ok(l, s1)
  {
  }

  /** The loop of `ParseBinaryExpression` at priority p builds `Build` of the chain read so far and on. */
  lemma {:induction false} LoopMatches(s: Cursor, acc: Chain, p: nat)
    requires p >= 1 && ChainOf(acc, p, s) && !OperatorWithin(s.token, p - 1)
    ensures WellFormed(Build(acc))
    ensures BinaryLoop(s, Build(acc), p) == Built(ChainLoop(s, p, acc))
    decreases p, 0, Measure(s)
  {
    if OperatorWithin(s.token, p) {
      var op := NodeOperator(s.token);
      match Advance(s)
      case Fail(_) =>
      case Ok(_, a) =>
        BinaryMatches(a, p - 1);
        LoopRound(s, p, acc, a);
        match Operands(a, p - 1)
        case Fail(_) =>
        case Ok(c, s3) =>
          BuildJoin(acc, op, c);
          JoinKeeps(acc, op, c, p, s, s3);
          LoopMatches(s3, Join(acc, op, c), p);
    }
  }

  /** `ParseExpression` is `Build` of the chain read at the top priority. */
  lemma ExpressionMatches(s: Cursor)
    ensures ParseExpression(s) == Built(Operands(s, |PriorityTable| - 1))
  {
    BinaryMatches(s, |PriorityTable| - 1);
  }

  /**
   * `ParseUnaryExpression` puts `-` on exactly one atom, so it binds tighter
   * than every binary operator: for each operator OP, `- a OP b` is OP
   * applied to the negated atom and to b, never the negation of `a OP b`.
   */
  lemma NegationBindsTightest(s0: Cursor, s1: Cursor, a: Expression, s2: Cursor,
                              s3: Cursor, b: Expression, s4: Cursor)
    requires s0.token == Token.Minus && Scanner.Next(s0) == Success(s1) && ParseAtom(s1) == Ok(a, s2)
    requires IsBinaryOperator(s2.token) && Scanner.Next(s2) == Success(s3) && ParseUnary(s3) == Ok(b, s4)
    requires !IsBinaryOperator(s4.token)
    ensures ParseExpression(s0) ==
            Ok(Expression.BinaryExpression(LineOf(s4), NodeOperator(s2.token),
                                           Expression.UnaryExpression(LineOf(s1), Negative, a), b), s4)
  {
    var neg := Expression.UnaryExpression(LineOf(s1), Negative, a);
    assert TryMatchToken(s0, Token.Minus) == Ok(true, s1);
    assert ParseUnary(s0) == Ok(neg, s2);
    assert Advance(s2) == Ok((), s3);
    var first := Single(neg, LineOf(s2));
    var chain := Join(first, NodeOperator(s2.token), Single(b, LineOf(s4)));
    assert ChainLoop(s4, 4, chain) == Ok(chain, s4);
    assert Operands(s0, 4) == Ok(chain, s4);
    BuildJoin(first, NodeOperator(s2.token), Single(b, LineOf(s4)));
    ExpressionMatches(s0);
  }

  /** The negation of a parsed atom, numbered with the given line; an exception passes through. */
  function Negated(line: int, r: Parsed<Expression>): Parsed<Expression> {
    match r
    case Ok(a, rest) => Ok(Expression.UnaryExpression(line, Negative, a), rest)
    case Fail(e) => Fail(e)
  }

  /**
   * `ParseUnaryExpression` reads exactly one atom: without `-` it is the
   * atom; with `-` it is the negated atom after the `-`, ending where that
   * atom ends, or the exception of reading past the `-`.
   */
  lemma UnaryTakesOneAtom(s: Cursor)
    ensures s.token != Token.Minus ==> ParseUnary(s) == ParseAtom(s)
    ensures s.token == Token.Minus && Scanner.Next(s).Failure? ==> ParseUnary(s) == Fail(Scanner.Next(s).error)
    ensures s.token == Token.Minus && Scanner.Next(s).Success? ==>
            ParseUnary(s) == Negated(LineOf(Scanner.Next(s).value), ParseAtom(Scanner.Next(s).value))
  {
  }
}
