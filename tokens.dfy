/**
 * The token kinds of the lexer, the keyword list, the token texts used in
 * diagnostics, and the two exceptions the front end raises.
 */
module Tokens {
  import opened Wrappers
  import opened Chars

  datatype Token =
    | EOF | Semico | LeftBracket | RightBracket | LeftBrace | RightBrace | Comma
    | DigitLiteral | Identifier
    | Plus | Minus | Mul | Div | Power
    | Is | For | From | To | Step

  /** The numeric value of each member of the C# enum `Lexer.Token`. */
  function Ordinal(t: Token): int {
    match t
    case EOF => 0
    case Semico => 1
    case LeftBracket => 2
    case RightBracket => 3
    case LeftBrace => 4
    case RightBrace => 5
    case Comma => 6
    case DigitLiteral => 7
    case Identifier => 8
    case Plus => 50
    case Minus => 51
    case Mul => 52
    case Div => 53
    case Power => 54
    case Is => 100
    case For => 101
    case From => 102
    case To => 103
    case Step => 104
  }

  /** The enum member with numeric value n, if there is one (casting an int back to `Token`). */
  function TokenOf(n: int): (r: Option<Token>)
    ensures r.Some? ==> Ordinal(r.value) == n
  {
    if n == 0 then Some(EOF)
    else if n == 1 then Some(Semico)
    else if n == 2 then Some(LeftBracket)
    else if n == 3 then Some(RightBracket)
    else if n == 4 then Some(LeftBrace)
    else if n == 5 then Some(RightBrace)
    else if n == 6 then Some(Comma)
    else if n == 7 then Some(DigitLiteral)
    else if n == 8 then Some(Identifier)
    else if n == 50 then Some(Plus)
    else if n == 51 then Some(Minus)
    else if n == 52 then Some(Mul)
    else if n == 53 then Some(Div)
    else if n == 54 then Some(Power)
    else if n == 100 then Some(Is)
    else if n == 101 then Some(For)
    else if n == 102 then Some(From)
    else if n == 103 then Some(To)
    else if n == 104 then Some(Step)
    else None
  }

  /** Casting a token to its number and back gives the token again. */
  lemma TokenOfOrdinal(t: Token)
    ensures TokenOf(Ordinal(t)) == Some(t)
  {
  }

  /** The keyword spellings, in the order of the keyword tokens `Is`..`Step`. */
  const KeywordNames: seq<string> := ["is", "for", "from", "to", "step"]

  /** `KeywordList`: the same spellings as character codes, compared with folded identifiers. */
  const KeywordList: seq<Text> := [Codes("is"), Codes("for"), Codes("from"), Codes("to"), Codes("step")]

  /** `Token.Is + i`: the keyword token at index i of the keyword list. */
  function KeywordAt(i: nat): (t: Token)
    requires i < |KeywordList|
    ensures Ordinal(t) == Ordinal(Is) + i
  {
    if i == 0 then Is else if i == 1 then For else if i == 2 then From else if i == 3 then To else Step
  }

  predicate IsKeyword(t: Token) {
    t == Is || t == For || t == From || t == To || t == Step
  }

  /** `Lexer.FormatToken`, on the enum's numeric value (a C# enum may hold any int). */
  function FormatToken(code: int): (r: string) {
    if code == Ordinal(EOF) then "<EOF>"
    else if code == Ordinal(Semico) then "';'"
    else if code == Ordinal(LeftBracket) then "'('"
    else if code == Ordinal(RightBracket) then "')'"
    else if code == Ordinal(LeftBrace) then "'{'"
    else if code == Ordinal(RightBrace) then "'}'"
    else if code == Ordinal(Comma) then "','"
    else if code == Ordinal(Plus) then "'+'"
    else if code == Ordinal(Minus) then "'-'"
    else if code == Ordinal(Mul) then "'*'"
    else if code == Ordinal(Div) then "'/'"
    else if code == Ordinal(Power) then "'**'"
    else if code == Ordinal(DigitLiteral) then "<digit>"
    else if code == Ordinal(Identifier) then "<identifier>"
    else if Ordinal(Is) <= code < Ordinal(Is) + |KeywordNames| then "<" + KeywordNames[code - Ordinal(Is)] + ">"
    else "<unknown>"
  }

  /**
   * What `FormatCurrentToken` shows: the fixed text of a token (the text
   * `FormatToken` gives it), the literal's value, or the quoted identifier.
   */
  datatype Shown = Fixed(token: Token) | Number(value: real) | Quoted(id: Text)

  /** The description argument of the exceptions, one variant per message format. */
  datatype Description =
    | UnexpectedCharacter(c: int)          // "unexpected character '{0}'."
    | NotValidFollowing(c: int)            // "not a valid following charcater '{0}'."
    | ExpectBut(expected: Token, found: Shown)   // "expect {0}, but found {1}."
    | UnexpectedToken(found: Shown)        // "unexpected token {0}."

  /** `LexcialException` and `SyntaxException`: where the error was seen and what it was. */
  datatype ParseError =
    | LexcialException(position: int, line: int, row: int, description: Description)
    | SyntaxException(position: int, line: int, row: int, description: Description)

  /**
   * The text shown for a token. Formatting a double and copying an
   * identifier's UTF-16 text into a .NET string are library calls, so they
   * are parameters.
   */
  function ShownText(sh: Shown, formatDouble: real -> string, identifierText: Text -> string): (r: string)
    ensures sh.Fixed? ==> r != "<unknown>"
    ensures sh.Quoted? ==> |r| >= 2 && r[0] == '"' && r[|r| - 1] == '"' && r[1..|r| - 1] == identifierText(sh.id)
  {
    match sh
    case Fixed(t) =>
      TokenOfOrdinal(t);
      FormatTokenUnknown(Ordinal(t));
      FormatToken(Ordinal(t))
    case Number(v) => formatDouble(v)
    case Quoted(id) => "\"" + identifierText(id) + "\""
  }

  /**
   * The description text of each message format. `FormatCharacter` (which
   * shows -1 as `\0` and control characters in hex) is a parameter.
   */
  function DescriptionText(d: Description, formatCharacter: int -> string,
                           formatDouble: real -> string, identifierText: Text -> string): string
  {
    match d
    case UnexpectedCharacter(c) => "unexpected character '" + formatCharacter(c) + "'."
    case NotValidFollowing(c) => "not a valid following charcater '" + formatCharacter(c) + "'."
    case ExpectBut(t, found) =>
      "expect " + FormatToken(Ordinal(t)) + ", but found " + ShownText(found, formatDouble, identifierText) + "."
    case UnexpectedToken(found) => "unexpected token " + ShownText(found, formatDouble, identifierText) + "."
  }

  /** The decimal digits of n, most significant first. */
  function NatToString(n: nat): (r: string)
    ensures |r| > 0
    ensures forall i | 0 <= i < |r| :: '0' <= r[i] <= '9'
    decreases n
  {
    var d := ['0' + (n % 10) as char];
    if n < 10 then d else NatToString(n / 10) + d
  }

  /** The number a string of decimal digits denotes. */
  function DecimalOf(s: string): nat
    requires forall i | 0 <= i < |s| :: '0' <= s[i] <= '9'
  {
    if s == [] then 0 else 10 * DecimalOf(s[..|s| - 1]) + (s[|s| - 1] - '0') as nat
  }

  /**
   * `CombineException`: the exception message "(line,row,position): description".
   * The counters appear in the order line, row, position, not in the order of
   * the parameters.
   */
  function CombineException(position: nat, line: nat, row: nat, description: string): (r: string)
    ensures |r| > |description| && r[0] == '('
    ensures r[|r| - |description|..] == description
  {
    "(" + NatToString(line) + "," + NatToString(row) + "," + NatToString(position) + "): " + description
  }

  /** Reading the digits of n back gives n: the counters in a message are recoverable. */
  lemma {:induction false} DecimalOfNatToString(n: nat)
    ensures DecimalOf(NatToString(n)) == n
    decreases n
  {
    var d := ['0' + (n % 10) as char];
    if n >= 10 {
      var hi := NatToString(n / 10);
      DecimalOfNatToString(n / 10);
      assert (hi + d)[..|hi + d| - 1] == hi;
    }
  }

  predicate IsDecimalDigit(c: char) {
    '0' <= c <= '9'
  }

  /** The length of the run of decimal digits a string starts with. */
  function DigitPrefix(s: string): (n: nat)
    ensures n <= |s|
    ensures forall i | 0 <= i < n :: IsDecimalDigit(s[i])
    ensures n < |s| ==> !IsDecimalDigit(s[n])
  {
    if s != [] && IsDecimalDigit(s[0]) then 1 + DigitPrefix(s[1..]) else 0
  }

  /** A string cut after the run of decimal digits it starts with. */
  function SplitDigits(s: string): (string, string) {
    var n := DigitPrefix(s);
    (s[..n], s[n..])
  }

  /** A counter, then `sep`, then the rest. */
  function ReadCounter(s: string, sep: string): Option<(nat, string)> {
    var (ds, rest) := SplitDigits(s);
    if ds == [] || |rest| < |sep| || rest[..|sep|] != sep then None
    else Some((DecimalOf(ds), rest[|sep|..]))
  }

  /**
   * Reads a message back: "(", the line's digits, ",", the row's digits, ",",
   * the position's digits, "): ", and the description.
   */
  function ReadMessage(m: string): Option<(nat, nat, nat, string)> {
    if |m| == 0 || m[0] != '(' then None
    else
      match ReadCounter(m[1..], ",")
      case None => None
      case Some((line, b)) =>
        match ReadCounter(b, ",")
        case None => None
        case Some((row, c)) =>
          match ReadCounter(c, "): ")
          case None => None
          case Some((position, description)) => Some((line, row, position, description))
  }

  /** Digits followed by a non-digit: the run is exactly the digits. */
  lemma {:induction false} DigitPrefixOfDigits(ds: string, rest: string)
    requires forall i | 0 <= i < |ds| :: IsDecimalDigit(ds[i])
    requires rest != [] && !IsDecimalDigit(rest[0])
    ensures DigitPrefix(ds + rest) == |ds|
    decreases |ds|
  {
    if ds != [] {
      assert (ds + rest)[1..] == ds[1..] + rest;
      DigitPrefixOfDigits(ds[1..], rest);
    } else {
      assert ds + rest == rest;
    }
  }

  /** A written counter followed by its separator reads back as that counter. */
  lemma CounterReadsBack(n: nat, sep: string, rest: string)
    requires sep != [] && !IsDecimalDigit(sep[0])
    ensures ReadCounter(NatToString(n) + sep + rest, sep) == Some((n, rest))
  {
    var ds := NatToString(n);
    var s := ds + sep + rest;
    assert s == ds + (sep + rest);
    DigitPrefixOfDigits(ds, sep + rest);
    assert s[..|ds|] == ds;
    assert s[|ds|..] == sep + rest;
    assert (sep + rest)[..|sep|] == sep;
    assert (sep + rest)[|sep|..] == rest;
    DecimalOfNatToString(n);
  }

  /**
   * `CombineException` writes line, row and position in that order, each in
   * decimal, between "(" and "): ", with commas between: reading the message
   * back gives the three counters and the description.
   */
  lemma MessageReadsBack(position: nat, line: nat, row: nat, description: string)
    ensures ReadMessage(CombineException(position, line, row, description)) == Some((line, row, position, description))
  {
    var m := CombineException(position, line, row, description);
    var c := NatToString(position) + "): " + description;
    var b := NatToString(row) + "," + c;
    var a := NatToString(line) + "," + b;
    assert m == "(" + a;
    assert m[1..] == a;
    CounterReadsBack(line, ",", b);
    CounterReadsBack(row, ",", c);
    CounterReadsBack(position, "): ", description);
  }

  /** A number that names a token formats to that token's text; every other number formats to "<unknown>". */
  lemma FormatTokenUnknown(code: int)
    ensures FormatToken(code) == "<unknown>" <==> TokenOf(code).None?
  {
    if Ordinal(Is) <= code < Ordinal(Is) + |KeywordNames| {
      var name := KeywordNames[code - Ordinal(Is)];
      assert ("<" + name + ">")[1] == name[0];
    }
  }

  /** The keyword tokens format to the keyword between angle brackets, looked up through the list index. */
  lemma FormatKeyword(i: nat)
    requires i < |KeywordList|
    ensures FormatToken(Ordinal(KeywordAt(i))) == "<" + KeywordNames[i] + ">"
    ensures KeywordList[i] == Codes(KeywordNames[i]) && IsKeyword(KeywordAt(i))
  {
  }
}
