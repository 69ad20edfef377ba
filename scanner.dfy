/**
 * A positional specification of the lexer: where, in the input, each call of
 * `Lexer.Next` starts and ends, and which token and payload it produces.
 * The imperative lexer (module Lexing) is proved to compute exactly this.
 */
module Scanner {
  import opened Wrappers
  import opened Chars
  import opened Tokens

  /**
   * The lexer between two calls of Next: the whole input, the index of the
   * next unread character (`position`, which is also where `BufNext` was
   * read from), and the current token with its payloads.
   */
  datatype LexState = LexState(input: Text, position: nat, token: Token, digit: real, id: Text, idLower: Text)

  /** A state whose position lies inside the input, the only kind the lexer reaches. */
  type Cursor = s: LexState | s.position <= |s.input| witness LexState([], 0, EOF, 0.0, [], [])

  /** The state the constructor leaves: nothing consumed, token `EOF`, empty payloads. */
  function Start(input: Text): (s: Cursor)
    ensures s.input == input && s.position == 0 && s.token == EOF
  {
    LexState(input, 0, EOF, 0.0, [], [])
  }

  function NewlineCount(t: Text): nat {
    if t == [] then 0
    else NewlineCount(t[..|t| - 1]) + (if t[|t| - 1] == '\n' as int then 1 else 0)
  }

  /** The `line` counter once p characters are consumed: one more than the newlines among them. */
  function LineAt(input: Text, p: nat): nat
    requires p <= |input|
  {
    1 + NewlineCount(input[..p])
  }

  /**
   * The `row` counter. The lexer resets it to 0 on every newline and never
   * increments it, so it is 0 in every reachable state (Lexing.Lexer.Valid).
   */
  const RowCounter: int := 0

  /** A comment starts with `//` or `--`. */
  predicate IsCommentStart(input: Text, p: nat) {
    p + 1 < |input| &&
    ((input[p] == '/' as int && input[p + 1] == '/' as int) ||
     (input[p] == '-' as int && input[p + 1] == '-' as int))
  }

  /** Where a comment starting at p stops: just past the next newline, or at the end of input. */
  function LineEnd(input: Text, p: nat): (e: nat)
    requires p <= |input|
    ensures p <= e <= |input|
    ensures forall k | p <= k < e :: input[k] == '\n' as int ==> k == e - 1
    ensures e < |input| ==> p < e && input[e - 1] == '\n' as int
    decreases |input| - p
  {
    if p == |input| then p
    else if input[p] == '\n' as int then p + 1
    else LineEnd(input, p + 1)
  }

  /** Position k lies in a comment that starts at or after p. */
  predicate InComment(input: Text, p: nat, k: nat) {
    exists j | p <= j <= k :: IsCommentStart(input, j) && k < LineEnd(input, j)
  }

  /** Where the next token starts: after every blank and every comment from p on. */
  function SkipEnd(input: Text, p: nat): (q: nat)
    requires p <= |input|
    ensures p <= q <= |input|
    ensures !IsBlank(At(input, q)) && !IsCommentStart(input, q)
    ensures !IsBlank(At(input, p)) && !IsCommentStart(input, p) ==> q == p
    decreases |input| - p
  {
    if p < |input| && IsBlank(input[p]) then SkipEnd(input, p + 1)
    else if IsCommentStart(input, p) then SkipEnd(input, LineEnd(input, p))
    else p
  }

  /**
   * `SkipEnd` is the first place a token can start: everything it skips is a
   * blank or lies in a comment.
   */
  lemma {:induction false} SkipsOnlyBlanksAndComments(input: Text, p: nat)
    requires p <= |input|
    ensures forall k | p <= k < SkipEnd(input, p) :: IsBlank(input[k]) || InComment(input, p, k)
    decreases |input| - p
  {
    if p < |input| && IsBlank(input[p]) {
      SkipsOnlyBlanksAndComments(input, p + 1);
    } else if IsCommentStart(input, p) {
      SkipsOnlyBlanksAndComments(input, LineEnd(input, p));
    }
  }

  predicate AllDigits(ds: Text) {
    forall k | 0 <= k < |ds| :: IsDigit(ds[k])
  }

  /** The end of the run of decimal digits that starts at p. */
  function DigitRunEnd(input: Text, p: nat): (e: nat)
    requires p <= |input|
    ensures p <= e <= |input|
    ensures forall k | p <= k < e :: IsDigit(input[k])
    ensures !IsDigit(At(input, e))
    decreases |input| - p
  {
    if p < |input| && IsDigit(input[p]) then DigitRunEnd(input, p + 1) else p
  }

  /** The end of the run of identifier characters that starts at p. */
  function IdentRunEnd(input: Text, p: nat): (e: nat)
    requires p <= |input|
    ensures p <= e <= |input|
    ensures forall k | p <= k < e :: IsIdentifyCharacter(input[k])
    ensures !IsIdentifyCharacter(At(input, e))
    decreases |input| - p
  {
    if p < |input| && IsIdentifyCharacter(input[p]) then IdentRunEnd(input, p + 1) else p
  }

  function DigitValue(c: int): nat
    requires IsDigit(c)
  {
    c - '0' as int
  }

  /** The integer part of a literal, folded left to right as `ret = ret * 10 + digit`. */
  function DecimalValue(ds: Text): nat
    requires AllDigits(ds)
  {
    if ds == [] then 0
    else DecimalValue(ds[..|ds| - 1]) * 10 + DigitValue(ds[|ds| - 1])
  }

  /** The weight of the k-th fraction digit: one tenth to the k-th power, built as `pow *= 0.1`. */
  function Tenth(k: nat): (w: real)
    ensures 0.0 < w <= 1.0
  {
    if k == 0 then 1.0 else Tenth(k - 1) * 0.1
  }

  /** The fraction digits after the point, each weighted by the next power of one tenth. */
  function FracValue(ds: Text): real
    requires AllDigits(ds)
  {
    if ds == [] then 0.0
    else FracValue(ds[..|ds| - 1]) + Tenth(|ds|) * DigitValue(ds[|ds| - 1]) as real
  }

  /**
   * `ParseDigit` from a digit at q: the integer digits, then, if a point
   * follows, the point (consumed even when no digit follows it) and the
   * fraction digits. Gives the value and where the literal ends; fails if an
   * identifier character follows the literal.
   */
  function ScanNumber(input: Text, q: nat): (r: Result<(real, nat), ParseError>)
    requires q < |input| && IsDigit(input[q])
    ensures r.Success? ==> q < r.value.1 <= |input| && !IsIdentifyCharacter(At(input, r.value.1))
  {
    var e := DigitRunEnd(input, q);
    var whole := DecimalValue(input[q..e]) as real;
    var hasPoint := At(input, e) == '.' as int;
    var f := if hasPoint then DigitRunEnd(input, e + 1) else e;
    var value := if hasPoint then whole + FracValue(input[e + 1..f]) else whole;
    if IsIdentifyCharacter(At(input, f)) then
      Failure(LexcialException(f, LineAt(input, f), RowCounter, NotValidFollowing(At(input, f))))
    else
      Success((value, f))
  }

  /** The maximal run of identifier characters from q, and where it ends. */
  function ScanIdentifier(input: Text, q: nat): (r: (Text, nat))
    requires q <= |input|
    ensures q <= r.1 <= |input| && r.0 == input[q..r.1]
  {
    var e := IdentRunEnd(input, q);
    (input[q..e], e)
  }

  /** The keyword search loop from index i on: `Token.Is + i` for the first match, else `Identifier`. */
  function KeywordFrom(lower: Text, i: nat): Token
    requires i <= |KeywordList|
    decreases |KeywordList| - i
  {
    if i == |KeywordList| then Identifier
    else if KeywordList[i] == lower then KeywordAt(i)
    else KeywordFrom(lower, i + 1)
  }

  /** Keyword folding: the token an identifier whose lowercase form is `lower` becomes. */
  function KeywordToken(lower: Text): Token {
    KeywordFrom(lower, 0)
  }

  /** The tokens spelled by one character that needs no look-ahead. */
  function SingleCharToken(c: int): Option<Token> {
    if c == ';' as int then Some(Semico)
    else if c == '(' as int then Some(LeftBracket)
    else if c == ')' as int then Some(RightBracket)
    else if c == '{' as int then Some(LeftBrace)
    else if c == '}' as int then Some(RightBrace)
    else if c == ',' as int then Some(Comma)
    else if c == '+' as int then Some(Plus)
    else if c == '-' as int then Some(Minus)
    else if c == '/' as int then Some(Div)
    else None
  }

  /**
   * The measure the parser's recursion decreases: twice the unread input,
   * plus one while the current token is not `EOF`.
   */
  function Measure(s: Cursor): nat {
    2 * (|s.input| - s.position) + (if s.token == EOF then 0 else 1)
  }

  /**
   * `Lexer.Next`: skip blanks and comments, then classify the next token.
   * The payloads of the previous token stay when the new token has none.
   */
  function Next(s: Cursor): (r: Result<Cursor, ParseError>)
    ensures r.Success? ==> r.value.input == s.input && s.position <= r.value.position
    ensures r.Success? && r.value.token != EOF ==> s.position < r.value.position
    ensures r.Success? && s.token != EOF ==> Measure(r.value) < Measure(s)
  {
    NextAt(s.(position := SkipEnd(s.input, s.position)))
  }

  /** The second half of `Next`: the token that starts at the current position. */
  function NextAt(s: Cursor): (r: Result<Cursor, ParseError>)
    ensures r.Success? ==> r.value.input == s.input && s.position <= r.value.position
    ensures r.Success? && r.value.token != EOF ==> s.position < r.value.position
  {
    var input := s.input;
    var q := s.position;
    var c := At(input, q);
    if c == -1 then
      Success(s.(token := EOF))
    else if SingleCharToken(c).Some? then
      Success(s.(position := q + 1, token := SingleCharToken(c).value))
    else if c == '*' as int then
      if At(input, q + 1) == '*' as int then Success(s.(position := q + 2, token := Power))
      else Success(s.(position := q + 1, token := Mul))
    else if IsDigit(c) then
      match ScanNumber(input, q)
      case Failure(err) => Failure(err)
      case Success(lit) => Success(s.(position := lit.1, token := DigitLiteral, digit := lit.0))
    else if IsIdentifyStart(c) then
      var (id, e) := ScanIdentifier(input, q);
      var lower := ToLower(id);
      Success(s.(position := e, token := KeywordToken(lower), id := id, idLower := lower))
    else
      Failure(LexcialException(q, LineAt(input, q), RowCounter + 1, UnexpectedCharacter(c)))
  }

  /**
   * `FormatCurrentToken`: the literal's value, the quoted identifier, or the
   * same fixed text `FormatToken` gives (its switch repeats FormatToken's).
   */
  function FormatCurrentToken(s: LexState): Shown {
    match s.token
    case DigitLiteral => Number(s.digit)
    case Identifier => Quoted(s.id)
    case _ => Fixed(s.token)
  }
}
