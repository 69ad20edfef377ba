/**
 * The syntax tree: the node classes of the front end as datatypes. Every node
 * keeps the line number it was built with; a node with an identifier keeps
 * it twice, as written and lower-cased, the way the `Identifier` setter
 * stores both. The type tag each constructor fixes is given by `TypeOf`,
 * quirk included: a call expression carries the tag of a call statement.
 */
module Ast {
  import opened Wrappers
  import opened Chars

  /** `BinaryOp`, in the order of the operator tokens Plus .. Power. */
  datatype BinaryOp = Plus | Minus | Mul | Div | Power

  /** `UnaryOp`. */
  datatype UnaryOp = Negative

  /** `ASTNode.ASTType`. */
  datatype ASTType =
    | NotImpl | StatementList | ArgList
    | Assignment | Call | ForStatement
    | BinaryExpression | UnaryExpression | DigitLiteral | CallExpression | SymbolExpression | TupleExpression

  /** The enum value of a `BinaryOp`: its place in the declaration. */
  function BinaryOpOrdinal(op: BinaryOp): int {
    match op
    case Plus => 0
    case Minus => 1
    case Mul => 2
    case Div => 3
    case Power => 4
  }

  /** `BinaryOp.Plus + n`, for the five values the enum declares. */
  function BinaryOpOf(n: int): (op: BinaryOp)
    requires 0 <= n < 5
    ensures BinaryOpOrdinal(op) == n
  {
    if n == 0 then Plus else if n == 1 then Minus else if n == 2 then Mul else if n == 3 then Div else Power
  }

  lemma BinaryOpOfOrdinal(op: BinaryOp)
    ensures BinaryOpOf(BinaryOpOrdinal(op)) == op
  {
  }

  /** `ASTNode_Expression` and its subclasses. */
  datatype Expression =
    | BinaryExpression(lineNumber: int, binaryOperator: BinaryOp, left: Expression, right: Expression)
    | UnaryExpression(lineNumber: int, unaryOperator: UnaryOp, right: Expression)
    | DigitLiteral(lineNumber: int, value: real)
    | CallExpression(lineNumber: int, identifier: Text, identifierLower: Text, argList: ArgList)
    | SymbolExpression(lineNumber: int, identifier: Text, identifierLower: Text)
    | TupleExpression(lineNumber: int, args: seq<Expression>)

  /** `ASTNode_ArgList`: its arguments in the order they were added. */
  datatype ArgList = ArgList(args: seq<Expression>)

  /** `ASTNode_Statement` and its subclasses; a missing step is `None` (the field's null default). */
  datatype Statement =
    | Assignment(lineNumber: int, identifier: Text, identifierLower: Text, expression: Expression)
    | Call(lineNumber: int, identifier: Text, identifierLower: Text, argList: ArgList)
    | ForStatement(lineNumber: int, identifier: Text, identifierLower: Text,
                   fromExpression: Expression, toExpression: Expression,
                   stepExpression: Option<Expression>, execBlock: StatementList)

  /** `ASTNode_StatementList`: its statements in the order they were added. */
  datatype StatementList = StatementList(statements: seq<Statement>)

  /** Any node, for the members the base class `ASTNode` has. */
  datatype Node = Expr(e: Expression) | Stmt(s: Statement) | Args(a: ArgList) | Stmts(l: StatementList)

  /** `ASTNode.Type`: the tag each constructor passes to the base constructor. */
  function TypeOf(n: Node): ASTType {
    match n
    case Expr(e) =>
      (match e
       case BinaryExpression(_, _, _, _) => ASTType.BinaryExpression
       case UnaryExpression(_, _, _) => ASTType.UnaryExpression
       case DigitLiteral(_, _) => ASTType.DigitLiteral
       case CallExpression(_, _, _, _) => ASTType.Call
       case SymbolExpression(_, _, _) => ASTType.SymbolExpression
       case TupleExpression(_, _) => ASTType.TupleExpression)
    case Stmt(s) =>
      (match s
       case Assignment(_, _, _, _) => ASTType.Assignment
       case Call(_, _, _, _) => ASTType.Call
       case ForStatement(_, _, _, _, _, _, _) => ASTType.ForStatement)
    case Args(_) => ASTType.ArgList
    case Stmts(_) => ASTType.StatementList
  }

  /**
   * `ASTNode.LineNumber`: the one-argument base constructor, which the list
   * nodes use, leaves it at 0.
   */
  function LineNumberOf(n: Node): int {
    match n
    case Expr(e) => e.lineNumber
    case Stmt(s) => s.lineNumber
    case Args(_) => 0
    case Stmts(_) => 0
  }

  /** The two node kinds whose tags agree. */
  predicate SharesCallTag(n: Node) {
    (n.Expr? && n.e.CallExpression?) || (n.Stmt? && n.s.Call?)
  }

  /** n and m are built by the same constructor. */
  predicate SameKind(n: Node, m: Node) {
    match n
    case Expr(e) =>
      m.Expr? &&
      (match e
       case BinaryExpression(_, _, _, _) => m.e.BinaryExpression?
       case UnaryExpression(_, _, _) => m.e.UnaryExpression?
       case DigitLiteral(_, _) => m.e.DigitLiteral?
       case CallExpression(_, _, _, _) => m.e.CallExpression?
       case SymbolExpression(_, _, _) => m.e.SymbolExpression?
       case TupleExpression(_, _) => m.e.TupleExpression?)
    case Stmt(st) =>
      m.Stmt? &&
      (match st
       case Assignment(_, _, _, _) => m.s.Assignment?
       case Call(_, _, _, _) => m.s.Call?
       case ForStatement(_, _, _, _, _, _, _) => m.s.ForStatement?)
    case Args(_) => m.Args?
    case Stmts(_) => m.Stmts?
  }

  /**
   * The tag tells the node's class apart: two nodes have the same tag exactly
   * when they are built by the same constructor, except that a call
   * expression and a call statement both say `Call`. No node says `NotImpl`
   * or `CallExpression`.
   */
  lemma TagsTellKindsApart(n: Node, m: Node)
    ensures TypeOf(n) == TypeOf(m) <==> SameKind(n, m) || (SharesCallTag(n) && SharesCallTag(m))
    ensures TypeOf(n) != ASTType.NotImpl && TypeOf(n) != ASTType.CallExpression
  {
  }

  /** The list nodes have line number 0 and their own tags. */
  lemma ListNodesHaveLineZero(a: ArgList, l: StatementList)
    ensures LineNumberOf(Args(a)) == 0 && TypeOf(Args(a)) == ASTType.ArgList
    ensures LineNumberOf(Stmts(l)) == 0 && TypeOf(Stmts(l)) == ASTType.StatementList
  {
  }

  /*
   * The constructors that take an identifier go through the `Identifier`
   * setter, which stores the lower-cased text beside it.
   */

  /** `ASTNode_Assignment(LineNum, Id, Expr)`. */
  function NewAssignment(lineNum: int, id: Text, expr: Expression): (n: Statement)
    ensures TypeOf(Stmt(n)) == ASTType.Assignment && LineNumberOf(Stmt(n)) == lineNum
    ensures Folded(n.identifier, n.identifierLower) && n.identifier == id
  {
    Statement.Assignment(lineNum, id, ToLower(id), expr)
  }

  /** `ASTNode_Call(LineNum, Id, AL)`. */
  function NewCall(lineNum: int, id: Text, al: ArgList): (n: Statement)
    ensures TypeOf(Stmt(n)) == ASTType.Call && LineNumberOf(Stmt(n)) == lineNum
    ensures Folded(n.identifier, n.identifierLower) && n.identifier == id
  {
    Statement.Call(lineNum, id, ToLower(id), al)
  }

  /** `ASTNode_ForStatement(LineNum)` with its properties set, the step left null when absent. */
  function NewForStatement(lineNum: int, id: Text, from: Expression, to: Expression,
                           step: Option<Expression>, block: StatementList): (n: Statement)
    ensures TypeOf(Stmt(n)) == ASTType.ForStatement && LineNumberOf(Stmt(n)) == lineNum
    ensures Folded(n.identifier, n.identifierLower) && n.identifier == id
  {
    Statement.ForStatement(lineNum, id, ToLower(id), from, to, step, block)
  }

  /** `ASTNode_CallExpression(LineNum, Id, AL)`: note the `Call` tag. */
  function NewCallExpression(lineNum: int, id: Text, al: ArgList): (n: Expression)
    ensures TypeOf(Expr(n)) == ASTType.Call && LineNumberOf(Expr(n)) == lineNum
    ensures Folded(n.identifier, n.identifierLower) && n.identifier == id
  {
    Expression.CallExpression(lineNum, id, ToLower(id), al)
  }

  /** `ASTNode_SymbolExpression(LineNum, Id)`. */
  function NewSymbolExpression(lineNum: int, id: Text): (n: Expression)
    ensures TypeOf(Expr(n)) == ASTType.SymbolExpression && LineNumberOf(Expr(n)) == lineNum
    ensures Folded(n.identifier, n.identifierLower) && n.identifier == id
  {
    Expression.SymbolExpression(lineNum, id, ToLower(id))
  }

  /**
   * What the setter keeps between the two identifier fields: the lower-cased
   * text has the same length, and agrees with the text character by character
   * up to ASCII case.
   */
  predicate Folded(id: Text, lower: Text) {
    |lower| == |id| &&
    forall i | 0 <= i < |id| ::
      lower[i] == (if 'A' as int <= id[i] <= 'Z' as int then id[i] + 32 else id[i])
  }

  /** The setter's pair is exactly the folded one: `Folded` pins the lower-cased text down. */
  lemma FoldedIsToLower(id: Text, lower: Text)
    ensures Folded(id, lower) <==> lower == ToLower(id)
  {
    if Folded(id, lower) {
      assert forall i | 0 <= i < |id| :: lower[i] == ToLower(id)[i];
    }
  }

  /**
   * Every identifier node in the tree was built through the setter, and every
   * tuple holds at least two elements.
   */
  predicate WellFormed(e: Expression) {
    match e
    case BinaryExpression(_, _, l, r) => WellFormed(l) && WellFormed(r)
    case UnaryExpression(_, _, r) => WellFormed(r)
    case DigitLiteral(_, _) => true
    case CallExpression(_, id, lower, al) => Folded(id, lower) && WellFormedArgs(al)
    case SymbolExpression(_, id, lower) => Folded(id, lower)
    case TupleExpression(_, args) => |args| >= 2 && forall i | 0 <= i < |args| :: WellFormed(args[i])
  }

  predicate WellFormedArgs(al: ArgList) {
    forall i | 0 <= i < |al.args| :: WellFormed(al.args[i])
  }

  predicate WellFormedStatement(s: Statement) {
    match s
    case Assignment(_, id, lower, e) => Folded(id, lower) && WellFormed(e)
    case Call(_, id, lower, al) => Folded(id, lower) && WellFormedArgs(al)
    case ForStatement(_, id, lower, f, t, step, block) =>
      Folded(id, lower) && WellFormed(f) && WellFormed(t) &&
      (step.Some? ==> WellFormed(step.value)) && WellFormedList(block)
  }

  predicate WellFormedList(l: StatementList) {
    forall i | 0 <= i < |l.statements| :: WellFormedStatement(l.statements[i])
  }
}
