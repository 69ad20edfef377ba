# ice/lang front end in Dafny

This project models the front end of the `ice` language: the character lexer
(`Lexer.cs`), the recursive-descent parser with precedence climbing
(`Syntax.cs`), and the syntax-tree node classes (`AST.cs`). Together they
take a program text to a statement list, or to the first lexical or syntax
exception.

The model has two layers.

- **Specification functions.**
  - `Scanner` says what one call of `Lexer.Next` does. It is phrased over a
    `LexState`: the input, the index of the next unread character, the
    current token and the token's payloads.
  - `Grammar` gives one function per parser production. Each takes such a
    state and returns the node with the state after it, or the exception.
  - `Ast` holds the node classes as datatypes. It keeps the separate
    lower-cased identifier field and the `Type` tag of each class.
- **Imperative code in the source's own form.**
  - `Lexing.Lexer` is a class with the source's fields (`bufNext`,
    `curToken`, `curDigit`, `curId`, `curIdLower`, `position`, `line`,
    `row`) and its loops.
  - `Syntax` has one method per production. Each advances a shared `Lexer`
    and appends to node lists in `while` loops.
  - Every method is proved against its specification function. On success
    it returns the same node and leaves the same lexer state; on failure it
    returns the same exception.

The input is a sequence of UTF-16 code units (`Chars.Text`). The value -1
stands for end of input, which is what `TextReader.Read` returns there.
`CurDigit` is an exact `real`. Exceptions become a `ParseError` value that
carries the position, line, row and a description, and every caller passes
it on at once. The description records which message format was used and
what it shows. `Tokens.DescriptionText` renders a description to its
message text, and `Tokens.CombineException` writes the full message.

The lexer is split into helper methods and the specification functions have
helper functions, each for one stretch of the source's code. The helpers
are `SkipComment`, `ReadIntegerDigits`, `ReadFractionDigits`,
`ReadIdentifier`, `LookupKeyword`, `ReadOperator` and `ReadToken` in the
lexer, and `NextAt`, `ForBounds`, `ForTail`, `OptionalStep`, `CallTail`,
`AssignmentTail`, `BinaryLoop`, `ArgLoop`, `TupleLoop` and `StatementLoop`
in the specification. The split does not change what the code does.

Three behaviours of the source are kept on purpose:

- `ParseExpression` starts at priority 4 (the table's length minus one),
  although no operator has priority 4.
- A call expression carries the `Call` tag of a call statement.
- The row counter is reset on every newline and never incremented, so it is
  0 in every state. The "unexpected character" error reports row 1.

The `Precedence` module proves, for every input, what tree the binary layer
builds. The tokens it reads form a flat chain: unary operands with operators
between them. `Precedence.Build` is an independent reading of such a chain.
It puts the last of the loosest operators at the root, the chain before it
on the left and the chain after it on the right. `Precedence.BinaryMatches`
shows that `ParseBinaryExpression` builds exactly this tree at every
priority. So `**` binds tighter than `*` and `/`, these bind tighter than
`+` and `-`, and operators of one priority group to the left.

The `Samples` module runs whole programs through the specification. Its
first part states, for any token stream of a given shape, the tree
`ParseBinaryExpression`, `ParseBracketExpression` and `ParseForStatement`
build. Its second part derives `ParseText`'s result for a handful of short
inputs from those shapes. Each general lemma of `Samples` is applied to at
least one of these inputs, so its `requires` are met by a real token stream.

The samples pin down behaviours that are easy to misread in the grammar:

- `**` groups to the left like the other operators: `2**3**2` is
  `(2 ** 3) ** 2`.
- `-` takes only the atom after it: `-2*3` is `(-2) * 3`.
- A missing expression is not reported as an expected expression. `x is ;`
  raises "unexpected token ';'." from `ParseAtomExpression`, at the position
  after the `;`.
- A `.` after the integer digits of a literal is always read, even when no
  digit follows: `1.` is the literal 1.0.

## Model

| member | source | states |
|---|---|---|
| Tokens.TokenOf | ice/lang/Lexer.cs:106-131 | Casting an int back to `Token` names the enum member with that numeric value (0..8, 50..54, 100..104) |
| Tokens.TokenOfOrdinal | ice/lang/Lexer.cs:106-131 | Casting a token to its number and back gives the token again |
| Tokens.KeywordAt | ice/lang/Lexer.cs:126-137 | `Token.Is + i` is the keyword token whose number is `Is`'s plus i, for each index of `KeywordList` |
| Tokens.FormatKeyword | ice/lang/Lexer.cs:144-182 | A keyword token formats to its spelling in `KeywordList` between angle brackets, and the list holds the five keyword spellings |
| Tokens.FormatTokenUnknown | ice/lang/Lexer.cs:144-182 | `FormatToken` gives "<unknown>" exactly for the numbers that name no token |
| Tokens.ShownText | ice/lang/Lexer.cs:184-222 | A fixed token never shows as "<unknown>"; a quoted identifier is its text between two double quotes |
| Tokens.CombineException | ice/lang/Lexer.cs:430-433 | The message is "(line,row,position): " followed by the description, so it starts with `(` and ends with the description |
| Tokens.MessageReadsBack | ice/lang/Lexer.cs:430-433 | Reading a message back at its `(`, its two commas and its "): " gives the line, the row and the position, in that order, and the description |
| Tokens.CounterReadsBack | ice/lang/Lexer.cs:430-433 | A counter written in decimal and followed by a separator that starts with a non-digit reads back as that counter and the rest |
| Tokens.DigitPrefix | ice/lang/Lexer.cs:430-433 | The digit run a message field starts with is maximal: all digits, then a non-digit or the end |
| Tokens.DigitPrefixOfDigits | ice/lang/Lexer.cs:430-433 | The digit run of digits followed by a non-digit is exactly those digits |
| Tokens.DecimalOfNatToString | ice/lang/Lexer.cs:430-433 | The decimal digits written into a message read back as the same counter |
| Chars.ToLower | ice/lang/Lexer.cs:399 | Lower-casing keeps the length and folds each code on its own (ASCII capitals gain 32) |
| Chars.ToLowerIdempotent | ice/lang/Lexer.cs:399 | Lower-casing a lower-cased text changes nothing |
| Chars.StartIsIdentifyCharacter | ice/lang/Lexer.cs:235-243 | Every character that may start an identifier may continue one |
| Scanner.Start | ice/lang/Lexer.cs:15-24 | A fresh lexer is at position 0 with token `EOF` and nothing consumed |
| Scanner.LineEnd | ice/lang/Lexer.cs:316-320 | A comment runs through the first newline after its start, or to the end of input |
| Scanner.SkipEnd | ice/lang/Lexer.cs:308-323 | Skipping stops at a character that is neither a blank nor the start of a `//` or `--` comment, and moves nowhere when it is already at one; `SkipsOnlyBlanksAndComments` shows it is the first such place |
| Scanner.SkipsOnlyBlanksAndComments | ice/lang/Lexer.cs:308-323 | Every character skipped before a token is a blank or lies in a comment that starts at or after the skip's start; with `SkipEnd`'s own contract, the token starts at the first place that is neither |
| Scanner.DigitRunEnd | ice/lang/Lexer.cs:270-295 | The digit loops stop at the end of the maximal run of decimal digits |
| Scanner.IdentRunEnd | ice/lang/Lexer.cs:389-394 | The identifier loop stops at the end of the maximal run of identifier characters |
| Scanner.Tenth | ice/lang/Lexer.cs:283-293 | The weight `pow` of each fraction digit lies in (0, 1] |
| Scanner.ScanNumber | ice/lang/Lexer.cs:265-301 | A literal that scans takes at least one character and is not followed by an identifier character |
| Scanner.ScanIdentifier | ice/lang/Lexer.cs:384-397 | The identifier text is the input between its start and its end |
| Scanner.Next | ice/lang/Lexer.cs:306-414 | `Next` keeps the input and never moves back; a token other than `EOF` consumes at least one character; while the current token is not `EOF`, the measure the parser's recursion decreases goes down |
| Scanner.NextAt | ice/lang/Lexer.cs:325-413 | Classifying the token at a position keeps the input and never moves back; a non-`EOF` token consumes a character |
| ScannerFacts.LineAtStart | ice/lang/Lexer.cs:22-24 | The line counter starts at 1 |
| ScannerFacts.LineAtStep | ice/lang/Lexer.cs:245-259 | Consuming one character raises `line` by exactly one when it is a newline and leaves it otherwise |
| ScannerFacts.DecimalValueStep | ice/lang/Lexer.cs:270-279 | One more integer digit is `ret * 10 + digit` |
| ScannerFacts.FracLoopStep | ice/lang/Lexer.cs:283-293 | One turn of `pow *= 0.1; dec += pow * digit` keeps `dec` the value of the fraction digits read so far |
| ScannerFacts.BlankIsSkipped | ice/lang/Lexer.cs:308-313 | A space, tab, CR or LF before the next token does not change what `Next` reads |
| ScannerFacts.CommentIsSkipped | ice/lang/Lexer.cs:314-320 | A `//` or `--` comment before the next token does not change what `Next` reads: reading resumes after the comment's newline, or at the end of input |
| ScannerFacts.EofIsSticky | ice/lang/Lexer.cs:328-330 | `EOF` is produced only at the end of input, and calling `Next` again gives the same state |
| ScannerFacts.SingleCharacterToken | ice/lang/Lexer.cs:331-362 | `;` `(` `)` `{` `}` `,` `+` `-` `/` each consume exactly one character and give their token |
| ScannerFacts.StarIsMaximalMunch | ice/lang/Lexer.cs:363-372 | `*` gives `Power` exactly when another `*` follows, consuming two characters, and `Mul` otherwise, consuming one |
| ScannerFacts.FracValueBelowOne | ice/lang/Lexer.cs:281-295 | The fraction digits are worth at least 0 and less than 1 |
| ScannerFacts.NumberValue | ice/lang/Lexer.cs:265-301 | A `.` after the integer digits is always consumed; the literal scans exactly when no identifier character follows it; its integer part is the base-10 value of the integer digits |
| ScannerFacts.NumberFollowedByLetter | ice/lang/Lexer.cs:296-299 | A literal followed by an identifier character is a "not a valid following character" error at that character, on its line, with row 0 |
| ScannerFacts.KeywordTokenExact | ice/lang/Lexer.cs:399-406 | The token is `Is + i` exactly when the folded text equals `KeywordList[i]`, and `Identifier` exactly when it equals no entry |
| ScannerFacts.KeywordsDistinct | ice/lang/Lexer.cs:134-137 | The keyword spellings and the keyword tokens are pairwise different |
| ScannerFacts.IdentifierIsMaximalRun | ice/lang/Lexer.cs:384-407 | An identifier is the maximal run of identifier characters at the token start; `CurIdLower` is its lower-case form and decides the token; `CurDigit` is untouched |
| ScannerFacts.UnexpectedCharacterError | ice/lang/Lexer.cs:408-412 | Any other character is an "unexpected character" error at its own position and line, with row `row + 1` = 1 |
| ScannerFacts.NextErrors | ice/lang/Lexer.cs:296-299 | `Next` raises only lexical exceptions, of the two kinds the lexer has |
| ScannerFacts.CurrentTokenText | ice/lang/Lexer.cs:184-222 | `FormatCurrentToken` shows the literal's value or the quoted identifier, agrees with `FormatToken` on every other token, and no token formats as "<unknown>" |
| Lexing.Lexer.constructor | ice/lang/Lexer.cs:416-420 | A new lexer has read one character and is at position 0, line 1, row 0, token `EOF` |
| Lexing.Lexer.ReadNext | ice/lang/Lexer.cs:245-259 | `ReadNext` returns `BufNext`; a real character raises `position` by one and a newline raises `line`; at the end of input nothing is counted |
| Lexing.Lexer.Peek | ice/lang/Lexer.cs:316 | `Reader.Peek()` is the character after `BufNext` |
| Lexing.Lexer.ReadIntegerDigits | ice/lang/Lexer.cs:270-279 | The integer loop consumes the maximal digit run and folds it to its base-10 value |
| Lexing.Lexer.ReadFractionDigits | ice/lang/Lexer.cs:283-294 | The fraction loop consumes the maximal digit run and sums each digit times its power of one tenth |
| Lexing.Lexer.ParseDigit | ice/lang/Lexer.cs:265-301 | `ParseDigit` returns the value `ScanNumber` gives and stops where it says, or raises its exception |
| Lexing.Lexer.SkipBlanksAndComments | ice/lang/Lexer.cs:308-323 | The skip loop stops where `SkipEnd` says and leaves the current token alone |
| Lexing.Lexer.SkipComment | ice/lang/Lexer.cs:318-319 | The comment loop consumes through the next newline or to the end of input |
| Lexing.Lexer.ReadIdentifier | ice/lang/Lexer.cs:384-407 | The identifier case stores the maximal run as `CurId`, its lower-case form as `CurIdLower`, and the keyword token or `Identifier` |
| Lexing.Lexer.LookupKeyword | ice/lang/Lexer.cs:399-406 | The keyword loop gives `Is + i` for the first matching entry, else `Identifier` |
| Lexing.Lexer.ReadOperator | ice/lang/Lexer.cs:331-376 | The punctuation and operator cases consume one character, or two for `**`, and set the token |
| Lexing.Lexer.Next | ice/lang/Lexer.cs:306-414 | `Next` leaves exactly the state `Scanner.Next` gives, or raises its exception |
| Lexing.Lexer.ReadToken | ice/lang/Lexer.cs:325-413 | The token switch leaves exactly the state `Scanner.NextAt` gives, or raises its exception |
| Ast.BinaryOpOf | ice/lang/AST.cs:13-20 | `BinaryOp.Plus + n` is the operator declared n-th |
| Ast.BinaryOpOfOrdinal | ice/lang/AST.cs:13-20 | Each `BinaryOp` is `Plus` plus its own place in the declaration |
| Ast.TagsTellKindsApart | ice/lang/AST.cs:239-240 | Two nodes have equal tags exactly when they are built by the same constructor or are a call expression and a call statement, which share `Call`; no node is tagged `NotImpl` or `CallExpression` |
| Ast.ListNodesHaveLineZero | ice/lang/AST.cs:66-69 | The statement list and the argument list use the one-argument base constructor: line 0 and their own tags |
| Ast.NewAssignment | ice/lang/AST.cs:139-144 | An assignment is tagged `Assignment` with the given line, and its lower-case identifier is the fold of the identifier |
| Ast.NewCall | ice/lang/AST.cs:192-197 | A call statement is tagged `Call` with the given line, and its lower-case identifier is the fold of the identifier |
| Ast.NewForStatement | ice/lang/AST.cs:325-326 | A for statement is tagged `ForStatement` with the given line, and its lower-case identifier is the fold of the identifier |
| Ast.NewCallExpression | ice/lang/AST.cs:239-244 | A call expression is tagged `Call`, not `CallExpression`, with the given line and folded identifier |
| Ast.NewSymbolExpression | ice/lang/AST.cs:483-487 | A symbol is tagged `SymbolExpression` with the given line and folded identifier |
| Ast.FoldedIsToLower | ice/lang/AST.cs:112-116 | The pair the `Identifier` setter stores is exactly an identifier and its lower-case form |
| Grammar.NodeOperator | ice/lang/Syntax.cs:312 | The node operator of an operator token has that token's priority |
| Grammar.OperatorArithmetic | ice/lang/Syntax.cs:280-289 | The operator test is the range check `Plus <= t < Plus + 5`, the priority is the table entry at `t - Plus`, and the node operator is `BinaryOp.Plus + (t - Plus)` |
| Grammar.Advance | ice/lang/Syntax.cs:305 | A step of the lexer inside the parser never moves back and reads a token unless at `EOF` |
| Grammar.MatchToken | ice/lang/Syntax.cs:32-39 | `MatchToken` succeeds only on the expected token and then reads past it |
| Grammar.MatchIdentifier | ice/lang/Syntax.cs:46-55 | `MatchIdentifier` succeeds only on an identifier, returns its text as written, and reads past it |
| Grammar.TryMatchToken | ice/lang/Syntax.cs:63-70 | `TryMatchToken` never moves back and reads past the token when it reports a match |
| Grammar.TryMatchIdentifier | ice/lang/Syntax.cs:78-88 | `TryMatchIdentifier` never moves back and reads past the identifier when it reports one |
| Grammar.ParseExpression | ice/lang/Syntax.cs:259-262 | An expression reads at least one token, is well formed, and is not followed by a binary operator |
| Grammar.ParseBinary | ice/lang/Syntax.cs:272-315 | A binary expression at priority p reads at least one token and stops before any operator of priority at most p; the tree it builds is given by `Precedence.BinaryMatches` |
| Grammar.BinaryLoop | ice/lang/Syntax.cs:294-313 | The loop stops before any operator of its priority or tighter, and the expression it started from lies on the left spine of the result, under operators of the loop's priority only; the whole tree is given by `Precedence.LoopMatches` |
| Grammar.BinaryLoopStep | ice/lang/Syntax.cs:294-313 | One round of the loop makes the expression so far the left child of a node numbered with the line after the right operand |
| Grammar.LeftSpineGrows | ice/lang/Syntax.cs:312 | Nesting the expression so far under a new node of the loop's priority keeps it on the left spine |
| Grammar.ParseUnary | ice/lang/Syntax.cs:322-329 | A unary expression reads at least one token and is well formed; `Precedence.UnaryTakesOneAtom` shows the `-` takes exactly one atom |
| Grammar.ParseAtom | ice/lang/Syntax.cs:336-369 | An atom reads at least one token and is well formed |
| Grammar.ParseArgList | ice/lang/Syntax.cs:180-198 | An argument list stops at `)` and holds well-formed arguments; at an immediate `)` it is empty and reads nothing, otherwise it holds at least one argument |
| Grammar.ArgLoop | ice/lang/Syntax.cs:185-196 | The argument loop keeps the arguments read so far as a prefix, in order, and adds at least one |
| Grammar.ParseBracket | ice/lang/Syntax.cs:378-406 | A bracket's content reads at least one token, stops at `)`, and is well formed |
| Grammar.TupleLoop | ice/lang/Syntax.cs:389-403 | The tuple loop keeps the elements read so far as a prefix, in order, adds at least one, and numbers the tuple with the line before its first `,` |
| Grammar.ParseStatement | ice/lang/Syntax.cs:113-125 | A statement that is found reads at least one token and is well formed |
| Grammar.ParseStatementList | ice/lang/Syntax.cs:132-141 | A statement list stops at a token that starts no statement |
| Grammar.StatementLoop | ice/lang/Syntax.cs:136-139 | The statement loop keeps the statements read so far as a prefix, in order |
| Grammar.ParseBlock | ice/lang/Syntax.cs:148-173 | A block reads at least one token and holds well-formed statements |
| Grammar.ParseForStatement | ice/lang/Syntax.cs:205-221 | A for statement starts at `for`, reads at least one token, is a well-formed `ForStatement` and is numbered with the line of the `for` |
| Grammar.ForBounds | ice/lang/Syntax.cs:212-215 | The bounds and the rest read at least one token and give a well-formed `ForStatement` with the line and identifier passed in |
| Grammar.ForTail | ice/lang/Syntax.cs:216-218 | The optional step and the block give a `ForStatement` with the line, identifier and both bounds passed in, a step exactly when the token is `step`, well formed when its bounds are |
| Grammar.OptionalStep | ice/lang/Syntax.cs:216-217 | There is a step expression exactly when the current token is `step` (the field otherwise stays null) |
| Grammar.ParseAssignmentOrCall | ice/lang/Syntax.cs:228-250 | An assignment or call reads at least one token and is a well-formed `Assignment` or `Call` |
| Grammar.CallTail | ice/lang/Syntax.cs:231-236 | The call branch gives a well-formed `Call` |
| Grammar.AssignmentTail | ice/lang/Syntax.cs:238-244 | The assignment branch gives a well-formed `Assignment` |
| Grammar.Parse | ice/lang/Syntax.cs:95-105 | A parsed program runs to `EOF` and is well formed |
| GrammarFacts.PriorityOrder | ice/lang/Syntax.cs:18-25 | `**` binds tighter than `*` and `/`, which bind tighter than `+` and `-`; every operator priority is between 1 and 3 |
| GrammarFacts.ExpressionStartsAboveTable | ice/lang/Syntax.cs:259-262 | Starting at priority 4 parses exactly what starting at 3 parses |
| GrammarFacts.TryMatchTokenReadsOnlyOnMatch | ice/lang/Syntax.cs:63-70 | On another token `TryMatchToken` reports no match and changes nothing; on the token it is one `Next` |
| GrammarFacts.TryMatchIdentifierReadsOnlyOnMatch | ice/lang/Syntax.cs:78-88 | On another token `TryMatchIdentifier` reports no identifier with an empty text and changes nothing; on an identifier it returns its text as written after one `Next`, or that `Next`'s exception |
| GrammarFacts.MatchTokenError | ice/lang/Syntax.cs:32-55 | On another token `MatchToken` and `MatchIdentifier` fail with "expect X, but found Y." at the current position and line, row 0 |
| GrammarFacts.StatementStart | ice/lang/Syntax.cs:113-125 | `ParseStatement` finds nothing exactly when the token is neither `for` nor an identifier, and then reads nothing |
| GrammarFacts.ForStatementParts | ice/lang/Syntax.cs:205-221 | For every token stream `for ID from E to E [step E] block`, the statement holds ID as written, both bounds, the step and the block in their fields, is numbered with the line of `for`, and ends where the block ends |
| GrammarFacts.AssignmentOrCallError | ice/lang/Syntax.cs:246-249 | After an identifier, a token other than `(` and `is` is an "unexpected token" error there |
| GrammarFacts.AssignmentOrCallKinds | ice/lang/Syntax.cs:228-245 | `ID (` gives a call and `ID is` an assignment of that identifier, each numbered with the line after that token |
| GrammarFacts.CallStatement | ice/lang/Syntax.cs:228-237 | `ID ( args ) ;` is a call statement of that identifier, numbered with the line after `(`, whose arguments are exactly what the argument list parses, and parsing resumes after the `;` |
| GrammarFacts.CallNeedsSemicolon | ice/lang/Syntax.cs:235-236 | A call statement whose `)` is followed by anything other than `;` fails with "expect token ';', but found …" at that token |
| GrammarFacts.SymbolAtom | ice/lang/Syntax.cs:345-357 | An identifier not followed by `(` is a symbol expression of that name, numbered with the line of the following token, which stays unread |
| GrammarFacts.CallAtom | ice/lang/Syntax.cs:345-355 | `ID ( args )` inside an expression is a call expression tagged `Call`, numbered with the line after `)`, holding exactly the parsed argument list |
| GrammarFacts.ArgStep | ice/lang/Syntax.cs:185-190 | An argument followed by `,` is appended after the arguments read so far and the loop goes on after the comma |
| GrammarFacts.ArgEnd | ice/lang/Syntax.cs:185-192 | An argument followed by `)` ends the list with it appended last, leaving `)` unread |
| GrammarFacts.ArgLoopError | ice/lang/Syntax.cs:191-195 | An argument followed by neither `,` nor `)` raises "unexpected token" at that token |
| GrammarFacts.BracelessBlock | ice/lang/Syntax.cs:159-172 | A block without `{` is exactly one statement, the one `ParseStatement` reads there, ending where it ends, and an "unexpected token" error when no statement starts there |
| GrammarFacts.BracedBlock | ice/lang/Syntax.cs:148-158 | A block with `{` is the statement list read after the `{`, which is followed by `}`, and ends after the `}`; a lexical error after the `{` is the block's error |
| GrammarFacts.NoExpressionAt | ice/lang/Syntax.cs:336-369 | At a token that cannot start an atom, every priority level fails with "unexpected token" at that token |
| GrammarFacts.ExpressionStart | ice/lang/Syntax.cs:259-262 | An expression cannot start with a token other than `-`, a literal, an identifier or `(` |
| GrammarFacts.NoTrailingComma | ice/lang/Syntax.cs:185-196 | An argument list with `)` after a comma is an error |
| GrammarFacts.NoTrailingTupleComma | ice/lang/Syntax.cs:389-403 | A tuple with `)` after a comma is an error at that `)` |
| GrammarFacts.BracketIsGroupOrTuple | ice/lang/Syntax.cs:378-406 | A bracket holding one expression gives it unchanged; otherwise a tuple of at least two, the first expression first |
| GrammarFacts.ProgramRunsToEnd | ice/lang/Syntax.cs:95-105 | A program parses exactly when its statement list is followed by `EOF`; otherwise the next token is unexpected |
| Precedence.LastLoosest | ice/lang/Syntax.cs:18-25 | The root of a chain is an operator at least as loose as every other and strictly looser than every later one |
| Precedence.Build | ice/lang/Syntax.cs:272-315 | The reference tree of a chain of well-formed operands is well formed |
| Precedence.BuildJoin | ice/lang/Syntax.cs:294-313 | An operator put after a chain of operators no looser than it, and before a chain of strictly tighter ones, is the root, with the whole earlier chain as its left child |
| Precedence.ChainLoop | ice/lang/Syntax.cs:294-313 | The flat operator loop stops before any operator of priority at most p, and keeps the chain's operators at most p and its operands well formed |
| Precedence.Operands | ice/lang/Syntax.cs:272-315 | The chain read at priority p reads at least one token and stops before any operator of priority at most p |
| Precedence.ChainLoopSplit | ice/lang/Syntax.cs:279-291 | Reading at priority p is reading at p - 1 and then going on at p |
| Precedence.ChainLoopPrefix | ice/lang/Syntax.cs:294-313 | What was read before does not change how the loop goes on |
| Precedence.OperandsSplit | ice/lang/Syntax.cs:279-291 | The chain at priority p is the chain at p - 1 read on at p |
| Precedence.LoopRound | ice/lang/Syntax.cs:294-313 | One round of the loop appends the operator and the chain read one level down |
| Precedence.LevelFails | ice/lang/Syntax.cs:279-280 | A level fails with the exception of the level below |
| Precedence.LevelStep | ice/lang/Syntax.cs:279-291 | After the level below, a level runs its loop exactly when an operator of its own priority follows, and otherwise returns the lower expression |
| Precedence.BinaryMatches | ice/lang/Syntax.cs:272-315 | For every input and priority, `ParseBinaryExpression` builds exactly `Build` of the chain it reads and stops where the chain stops, or fails with the same exception |
| Precedence.LoopMatches | ice/lang/Syntax.cs:294-315 | The operator loop builds exactly `Build` of the chain read so far and on |
| Precedence.ExpressionMatches | ice/lang/Syntax.cs:259-262 | `ParseExpression` is `Build` of the chain read at the top priority |
| Precedence.NegationBindsTightest | ice/lang/Syntax.cs:322-329 | For every operator OP, `- a OP b` is OP applied to the negated atom and to b, never the negation of `a OP b` |
| Precedence.UnaryTakesOneAtom | ice/lang/Syntax.cs:322-329 | Without `-` the unary expression is the atom; with `-` it is the negation of the one atom after it, ending where that atom ends, or the exception of reading past the `-` |
| Syntax.Advance | ice/lang/Syntax.cs:305 | `Lex.Next()` inside the parser leaves the state `Grammar.Advance` gives, or passes on the lexical exception |
| Syntax.MatchToken | ice/lang/Syntax.cs:32-39 | `MatchToken` computes `Grammar.MatchToken` on the shared lexer |
| Syntax.MatchIdentifier | ice/lang/Syntax.cs:46-55 | `MatchIdentifier` computes `Grammar.MatchIdentifier` on the shared lexer |
| Syntax.TryMatchToken | ice/lang/Syntax.cs:63-70 | `TryMatchToken` computes `Grammar.TryMatchToken` on the shared lexer |
| Syntax.TryMatchIdentifier | ice/lang/Syntax.cs:78-88 | `TryMatchIdentifier` computes `Grammar.TryMatchIdentifier` on the shared lexer |
| Syntax.Parse | ice/lang/Syntax.cs:95-105 | `Parse` computes `Grammar.Parse` on the shared lexer |
| Syntax.ParseProgram | ice/lang/Lexer.cs:416-420 | A fresh lexer and `Parse` succeed exactly when `Grammar.ParseText` does, with the same tree or the same exception, and the tree is well formed |
| Syntax.ParseStatement | ice/lang/Syntax.cs:113-125 | `ParseStatement` computes `Grammar.ParseStatement` |
| Syntax.ParseStatementList | ice/lang/Syntax.cs:132-141 | The statement loop computes `Grammar.ParseStatementList`, appending in order |
| Syntax.ParseBlock | ice/lang/Syntax.cs:148-173 | `ParseBlock` computes `Grammar.ParseBlock` |
| Syntax.ParseForStatement | ice/lang/Syntax.cs:205-221 | `ParseForStatement` computes `Grammar.ParseForStatement` |
| Syntax.ParseForBounds | ice/lang/Syntax.cs:212-215 | The bounds part computes `Grammar.ForBounds` |
| Syntax.ParseForTail | ice/lang/Syntax.cs:216-220 | The step and block part computes `Grammar.ForTail` |
| Syntax.ParseOptionalStep | ice/lang/Syntax.cs:216-217 | `TryMatchToken(Step)` and the step expression compute `Grammar.OptionalStep` |
| Syntax.ParseAssignmentOrCall | ice/lang/Syntax.cs:228-250 | `ParseAssignmentOrCall` computes `Grammar.ParseAssignmentOrCall` |
| Syntax.ParseCallTail | ice/lang/Syntax.cs:231-236 | The call branch computes `Grammar.CallTail` |
| Syntax.ParseAssignmentTail | ice/lang/Syntax.cs:238-244 | The assignment branch computes `Grammar.AssignmentTail` |
| Syntax.ParseArgList | ice/lang/Syntax.cs:180-198 | The argument loop computes `Grammar.ParseArgList`, appending in order |
| Syntax.ParseExpression | ice/lang/Syntax.cs:259-262 | `ParseExpression` computes `Grammar.ParseExpression` |
| Syntax.ParseBinaryExpression | ice/lang/Syntax.cs:272-292 | `ParseBinaryExpression` computes `Grammar.ParseBinary` |
| Syntax.ParseBinaryLoop | ice/lang/Syntax.cs:294-315 | The operator loop, reassigning `tRet`, computes `Grammar.BinaryLoop` |
| Syntax.ParseUnaryExpression | ice/lang/Syntax.cs:322-329 | `ParseUnaryExpression` computes `Grammar.ParseUnary` |
| Syntax.ParseAtomExpression | ice/lang/Syntax.cs:336-369 | `ParseAtomExpression` computes `Grammar.ParseAtom` |
| Syntax.ParseBracketExpression | ice/lang/Syntax.cs:378-406 | The tuple loop computes `Grammar.ParseBracket`, appending in order |
| Samples.LiteralAtom | ice/lang/Syntax.cs:339-344 | A literal token is an atom: a literal node with the current line and value, after one `Next` |
| Samples.AtomAtZero | ice/lang/Syntax.cs:272-276 | Level 0 of the binary parser is the atom itself when no `-` comes first |
| Samples.OneUp | ice/lang/Syntax.cs:279-291 | A level returns the lower level's expression unchanged when no operator of at most its priority follows |
| Samples.AtomExpression | ice/lang/Syntax.cs:259-291 | An atom that no operator follows is a whole expression |
| Samples.ProductOperand | ice/lang/Syntax.cs:293-312 | In `d * d` at level 2 the loop makes one `Mul` node of the two literals, numbered with the line after the right operand |
| Samples.ProductBindsFirst | ice/lang/Syntax.cs:272-315 | For every token stream `d + d * d`, the tree is `Plus(d, Mul(d, d))`: `*` binds tighter than `+` |
| Samples.PowerLoop | ice/lang/Syntax.cs:293-312 | Each further `**` at level 1 makes the tree so far its left operand |
| Samples.PowerGroupsLeft | ice/lang/Syntax.cs:272-315 | For every token stream `d ** d ** d`, the tree is `Power(Power(d, d), d)`: `**` groups to the left |
| Samples.BracketAtom | ice/lang/Syntax.cs:358-365 | `(` contents `)` is an atom whose value is the bracket expression of the contents |
| Samples.LiteralInBrackets | ice/lang/Syntax.cs:378-406 | `( d )` is the literal itself, not a tuple of one |
| Samples.TupleStep | ice/lang/Syntax.cs:389-397 | A tuple round that another `,` follows appends its expression and goes on |
| Samples.TupleEnd | ice/lang/Syntax.cs:389-399 | A tuple round that `)` follows appends its expression and ends with the tuple |
| Samples.TwoMoreLiterals | ice/lang/Syntax.cs:389-403 | After a first element, `, d , d )` completes a tuple of three in order |
| Samples.LiteralTripleContents | ice/lang/Syntax.cs:378-406 | `d , d , d )` is a tuple of the three literals in order, numbered with the line at the first comma |
| Samples.LiteralTriple | ice/lang/Syntax.cs:358-406 | `( d , d , d )` is that tuple as an atom |
| Samples.AssignmentHead | ice/lang/Syntax.cs:228-241 | After `ID is`, `ParseAssignmentOrCall` goes on to the assignment's expression |
| Samples.AssignmentStatement | ice/lang/Syntax.cs:228-245 | `ID is E ;` is the assignment of E to ID, numbered with the line where E starts |
| Samples.OneStatement | ice/lang/Syntax.cs:132-141 | A statement followed by the end is the whole statement list |
| Samples.SingleAssignment | ice/lang/Syntax.cs:95-105 | A program `ID is E ;` parses to the list of that one assignment |
| Samples.SingleAssignmentFails | ice/lang/Syntax.cs:95-105 | When E fails, the whole parse fails with E's exception |
| Samples.FirstLine | ice/lang/Lexer.cs:245-258 | Before the first newline the line counter is 1 |
| Samples.XIsTokens | ice/lang/Lexer.cs:383-408 | "x is " lexes to the identifier `x` and then the keyword `is` |
| Samples.XIsProgram | ice/lang/Syntax.cs:95-105 | "x is E;" parses to the single assignment of E to `x` |
| Samples.XIsAtomProgram | ice/lang/Syntax.cs:259-291 | "x is A;" with an atom A parses to the single assignment of A to `x` |
| Samples.SingleDigit | ice/lang/Lexer.cs:265-301 | A lone digit is a literal of its value and ends right after it |
| Samples.Punctuation | ice/lang/Lexer.cs:331-375 | A one-character token is read in one step and keeps the payload fields |
| Samples.DoubleStar | ice/lang/Lexer.cs:363-372 | Two stars are one `**` token |
| Samples.DigitAfterIs | ice/lang/Lexer.cs:377-382 | A lone digit right after "x is " is the third token |
| Samples.MissingExpressionSample | ice/lang/Syntax.cs:366-368 | "x is ;" fails with "unexpected token ';'." at position 6, line 1, row 0 |
| Samples.SumSample | ice/lang/Syntax.cs:272-315 | "x is 1+2*3;" assigns `1 + (2 * 3)` |
| Samples.PowerSample | ice/lang/Syntax.cs:272-315 | "x is 2**3**2;" assigns `(2 ** 3) ** 2` |
| Samples.TupleSample | ice/lang/Syntax.cs:378-406 | "x is (1,2,3);" assigns the tuple of 1, 2 and 3 in order |
| Samples.GroupSample | ice/lang/Syntax.cs:378-406 | "x is (1);" assigns the literal 1, not a tuple |
| Samples.DecimalLiteral | ice/lang/Lexer.cs:265-301 | "12.5" is one literal worth 12.5 |
| Samples.LiteralRunsIntoLetter | ice/lang/Lexer.cs:296-299 | "1a" is a lexical error "not a valid following character" at position 1 |
| Samples.WholeWord | ice/lang/Lexer.cs:383-408 | An input that is one word is read whole, with its spelling, its folded form and the keyword it folds to |
| Samples.UpperCaseKeyword | ice/lang/Lexer.cs:396-405 | "FOR" is the keyword `for`, keeping "FOR" as its spelling |
| Samples.LowerCaseKeyword | ice/lang/Lexer.cs:396-405 | "for" is the keyword `for` |
| Samples.TrailingDotIsPartOfLiteral | ice/lang/Lexer.cs:280-294 | "1." is the literal 1.0 ending after the dot |
| Samples.DrawIsNoKeyword | ice/lang/Lexer.cs:134-137 | "draw" is no keyword, and "Draw" folds to it |
| Samples.IdentifierKeepsSpelling | ice/lang/Lexer.cs:383-408 | "Draw" is an identifier with spelling "Draw" and folded form "draw" |
| Samples.NegExpression | ice/lang/Syntax.cs:322-329 | "-2*3" is the product of the negated 2 and 3 |
| Samples.NegationSample | ice/lang/Syntax.cs:322-329 | "x is -2*3;" assigns `(-2) * 3` |
| Samples.Word | ice/lang/Lexer.cs:383-408 | A word with nothing to skip before it is read whole, with its spelling, its folded form and its keyword token |
| Samples.TokenHere | ice/lang/Lexer.cs:308-323 | Nothing is skipped at a character that is neither blank nor a comment start |
| Samples.AfterOneBlank | ice/lang/Lexer.cs:308-313 | One blank before such a character is skipped |
| Samples.RunEndsAt | ice/lang/Lexer.cs:389-394 | A run of identifier characters that stops at a non-identifier character ends there |
| Samples.EmptyBlock | ice/lang/Syntax.cs:148-158 | `{` `}` is the empty block |
| Samples.BoundsThenTail | ice/lang/Syntax.cs:213-215 | After `for ID from`, the two bounds around `to` are read and the rest follows them |
| Samples.TailWithoutStep | ice/lang/Syntax.cs:216-218 | Without `step`, the block follows the bounds and the step stays empty |
| Samples.ForHead | ice/lang/Syntax.cs:205-212 | `for ID from` leads to the bounds, with the line of the `for` and the identifier as written |
| Samples.ForParts | ice/lang/Syntax.cs:205-221 | "for i from 1 to 2{}" read from `for` is the for statement over `i` from 1 to 2 with no step and an empty block |
| Samples.ForSample | ice/lang/Syntax.cs:95-105 | The program "for i from 1 to 2{}" is that one for statement |

## Left out

- The `TextReader` is replaced by the input sequence and a read index, since reading a stream is I/O.
- `CurDigit` is an exact real. The IEEE double rounding of `ret * 10` and `pow *= 0.1` is not modelled.
- `String.ToLower` folds only the ASCII capitals. Its culture-dependent mapping of other characters is a library call the model does not have.
- `FormatCharacter`, `CurDigit.ToString()` and turning UTF-16 code units into a .NET string are parameters of `Tokens.DescriptionText` and `Tokens.ShownText`. `Char.IsControl` and the hex formatting are library calls.
- Tokens.ShownText: does not pin the text of a literal, because it comes from the `formatDouble` parameter.
- The state the lexer is left in after it raises an exception is not specified, because the parser stops at the first exception.
- Syntax-tree nodes are values. Object identity, aliasing and later mutation of the node lists by other code are not modelled. The parser's `Add` calls are appends to a sequence.
- C# enum values outside the declared members appear only through `Tokens.FormatToken` and `Tokens.TokenOf`, which take any int. The lexer and parser never produce such values.
- `System.Exception` itself: its `Message` property, stack unwinding and catching. An exception is the `ParseError` result, and the message text is `Tokens.CombineException` applied to its fields.
- The property getters (`CurrentToken`, `Position` and the node getters) are field reads: `Lexing.Lexer` fields and datatype fields.
- ice/PaintForm.cs, ice/DocumentForm.cs and ice/MainForm.cs are not part of this model. They are the user interface, threads and file I/O.
