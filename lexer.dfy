/**
 * The lexer as the source has it: an object with one character of look-ahead
 * (`bufNext`), one token of look-ahead (`curToken` and its payloads) and the
 * counters `position`, `line` and `row`, advanced by `Next`. Every method is
 * proved to do what the positional specification in module Scanner says.
 */
module Lexing {
  import opened Wrappers
  import opened Chars
  import opened Tokens
  import Scanner
  import ScannerFacts

  class Lexer {
    /** The characters the TextReader hands out, in order. */
    const input: Text
    /** How many characters the TextReader has handed out so far. */
    var readIndex: nat

    var bufNext: int
    var curToken: Token
    var curDigit: real
    var curId: Text
    var curIdLower: Text
    var position: int
    var line: int
    var row: int

    /**
     * The counters' invariant: `position` counts the consumed characters, so
     * `bufNext` is the character at that index; `line` is one more than the
     * newlines consumed; `row` is 0; and the reader is one character ahead.
     */
    ghost predicate Valid()
      reads this
    {
      0 <= position <= |input| &&
      bufNext == At(input, position) &&
      readIndex == (if position < |input| then position + 1 else |input|) &&
      line == Scanner.LineAt(input, position) &&
      row == 0
    }

    function State(): Scanner.Cursor
      reads this
      requires Valid()
    {
      Scanner.LexState(input, position, curToken, curDigit, curId, curIdLower)
    }

    /** `Lexer(TextReader)`: the counters start at position 0, line 1, row 0, and one character is read. */
    constructor (input: Text)
      ensures Valid() && State() == Scanner.Start(input)
      ensures position == 0 && line == 1 && row == 0
    {
      this.input := input;
      curToken := EOF;
      curDigit := 0.0;
      curId := [];
      curIdLower := [];
      position := 0;
      line := 1;
      row := 0;
      // ReadNext() with BufNext still -1: nothing is counted, then BufNext = Reader.Read().
      bufNext := At(input, 0);
      readIndex := if 0 < |input| then 1 else 0;
      new;
      ScannerFacts.LineAtStart(input);
    }

    /**
     * `ReadNext`: hand out `bufNext` and read the next character. A real
     * character is counted in `position`; a newline also raises `line` and resets `row`.
     */
    method ReadNext() returns (t: int)
      requires Valid()
      modifies this
      ensures Valid()
      ensures t == old(bufNext)
      ensures position == if t == -1 then old(position) else old(position) + 1
      ensures line == old(line) + (if t == '\n' as int then 1 else 0)
      ensures curToken == old(curToken) && curDigit == old(curDigit)
      ensures curId == old(curId) && curIdLower == old(curIdLower)
    {
      t := bufNext;
      if t != -1 {
        ScannerFacts.LineAtStep(input, position);
        if t == '\n' as int {
          line := line + 1;
          row := 0;
        }
        position := position + 1;
      }
      // BufNext = Reader.Read()
      bufNext := At(input, readIndex);
      if readIndex < |input| {
        readIndex := readIndex + 1;
      }
    }

    /** `Reader.Peek()`: the character after `bufNext`, without reading it. */
    function Peek(): (c: int)
      reads this
      requires Valid()
      ensures c == At(input, position + 1)
    {
      At(input, readIndex)
    }

    /** The first loop of `ParseDigit`: the integer digits, folded as `ret = ret * 10 + digit`. */
    method ReadIntegerDigits() returns (ret: real)
      requires Valid() && IsDigit(bufNext)
      modifies this
      ensures Valid() && position == Scanner.DigitRunEnd(input, old(position))
      ensures ret == Scanner.DecimalValue(input[old(position)..position]) as real
      ensures curToken == old(curToken) && curDigit == old(curDigit)
      ensures curId == old(curId) && curIdLower == old(curIdLower)
    {
      ghost var q := position;
      ghost var e := Scanner.DigitRunEnd(input, q);
      var c: int;
      ret := 0.0;
      while true
        invariant Valid() && q <= position < e
        invariant ret == Scanner.DecimalValue(input[q..position]) as real
        invariant curToken == old(curToken) && curDigit == old(curDigit)
        invariant curId == old(curId) && curIdLower == old(curIdLower)
        decreases |input| - position
      {
        ScannerFacts.DecimalValueStep(input, q, position);
        c := ReadNext();
        ret := ret * 10.0;
        ret := ret + (c - '0' as int) as real;
        c := bufNext;
        if !IsDigit(c) {
          break;
        }
      }
    }

    /** The second loop of `ParseDigit`: the fraction digits, `pow *= 0.1; dec += pow * digit`. */
    method ReadFractionDigits() returns (dec: real)
      requires Valid()
      modifies this
      ensures Valid() && position == Scanner.DigitRunEnd(input, old(position))
      ensures dec == Scanner.FracValue(input[old(position)..position])
      ensures curToken == old(curToken) && curDigit == old(curDigit)
      ensures curId == old(curId) && curIdLower == old(curIdLower)
    {
      ghost var f0 := position;
      ghost var f := Scanner.DigitRunEnd(input, f0);
      var c: int;
      dec := 0.0;
      var pow: real := 1.0;
      while true
        invariant Valid() && f0 <= position <= f
        invariant pow == Scanner.Tenth(position - f0)
        invariant dec == Scanner.FracValue(input[f0..position])
        invariant curToken == old(curToken) && curDigit == old(curDigit)
        invariant curId == old(curId) && curIdLower == old(curIdLower)
        decreases |input| - position
      {
        c := bufNext;
        if !IsDigit(c) {
          break;
        }
        ghost var p, pow0, dec0 := position, pow, dec;
        c := ReadNext();
        pow := pow * 0.1;
        dec := dec + pow * (c - '0' as int) as real;
        ScannerFacts.FracLoopStep(input, f0, p, dec0, pow0, c, pow, dec);
      }
    }

    /**
     * `ParseDigit`, from the first digit of a literal: the integer digits,
     * then a point and the fraction digits, then the check that no
     * identifier character follows.
     */
    method ParseDigit() returns (r: Result<real, ParseError>)
      requires Valid() && IsDigit(bufNext)
      modifies this
      ensures Valid()
      ensures curToken == old(curToken) && curDigit == old(curDigit)
      ensures curId == old(curId) && curIdLower == old(curIdLower)
      ensures match Scanner.ScanNumber(input, old(position))
              case Success(lit) => r == Success(lit.0) && position == lit.1
              case Failure(e) => r == Failure(e)
    {
      var ret := ReadIntegerDigits();
      if bufNext == '.' as int {
        var c := ReadNext();
        var dec := ReadFractionDigits();
        ret := ret + dec;
      }
      var c := bufNext;
      if IsIdentifyCharacter(c) {
        return Failure(LexcialException(position, line, row, NotValidFollowing(c)));
      }
      return Success(ret);
    }

    /** The first loop of `Next`: skip blanks and comments up to where the next token starts. */
    method SkipBlanksAndComments()
      requires Valid()
      modifies this
      ensures Valid() && position == Scanner.SkipEnd(input, old(position))
      ensures curToken == old(curToken) && curDigit == old(curDigit)
      ensures curId == old(curId) && curIdLower == old(curIdLower)
    {
      ghost var q := Scanner.SkipEnd(input, position);
      while true
        invariant Valid() && position <= q
        invariant Scanner.SkipEnd(input, position) == q
        invariant curToken == old(curToken) && curDigit == old(curDigit)
        invariant curId == old(curId) && curIdLower == old(curIdLower)
        decreases |input| - position
      {
        var c := bufNext;
        if c == ' ' as int || c == '\n' as int || c == '\r' as int || c == '\t' as int {
          c := ReadNext();
        } else if (c == '/' as int && Peek() == '/' as int) || (c == '-' as int && Peek() == '-' as int) {
          SkipComment();
        } else {
          break;
        }
      }
      assert position == q;
    }

    /** The inner loop of the comment case: read up to and including the next newline. */
    method SkipComment()
      requires Valid() && bufNext != '\n' as int
      modifies this
      ensures Valid() && position == Scanner.LineEnd(input, old(position))
      ensures curToken == old(curToken) && curDigit == old(curDigit)
      ensures curId == old(curId) && curIdLower == old(curIdLower)
    {
      ghost var p0 := position;
      var c := bufNext;
      while !(c == '\n' as int || c == -1)
        invariant Valid() && p0 <= position <= |input|
        invariant c == '\n' as int ==> position == Scanner.LineEnd(input, p0)
        invariant c != '\n' as int ==> Scanner.LineEnd(input, position) == Scanner.LineEnd(input, p0)
        invariant c == -1 ==> position == |input|
        invariant curToken == old(curToken) && curDigit == old(curDigit)
        invariant curId == old(curId) && curIdLower == old(curIdLower)
        decreases |input| - position, if c == -1 then 0 else 1
      {
        c := ReadNext();
      }
    }

    /**
     * The identifier case of `Next`: gather identifier characters into
     * `curId`, lower-case it into `curIdLower`, and look it up among the keywords.
     */
    method ReadIdentifier()
      requires Valid() && IsIdentifyStart(bufNext)
      modifies this
      ensures Valid() && curDigit == old(curDigit)
      ensures (curId, position) == Scanner.ScanIdentifier(input, old(position))
      ensures curIdLower == ToLower(curId) && curToken == Scanner.KeywordToken(curIdLower)
    {
      ghost var q := position;
      ghost var e := Scanner.IdentRunEnd(input, q);
      curToken := Identifier;
      var ct := bufNext;
      var discarded: int;
      var t: Text := [];
      while IsIdentifyCharacter(ct)
        invariant Valid() && q <= position <= e
        invariant ct == bufNext
        invariant t == input[q..position]
        invariant curToken == Identifier && curDigit == old(curDigit)
        decreases |input| - position
      {
        discarded := ReadNext();
        t := t + [ct as CharCode];
        ct := bufNext;
      }
      curId := t;
      curIdLower := ToLower(curId);
      curToken := LookupKeyword(curIdLower);
    }

    /** The keyword loop of the identifier case: `Token.Is + i` for the first match, else `Identifier`. */
    static method LookupKeyword(lower: Text) returns (t: Token)
      ensures t == Scanner.KeywordToken(lower)
    {
      t := Identifier;
      for i := 0 to |KeywordList|
        invariant Scanner.KeywordFrom(lower, i) == Scanner.KeywordToken(lower)
        invariant t == Identifier
      {
        if KeywordList[i] == lower {
          t := KeywordAt(i);
          break;
        }
      }
    }

    /** The operator and punctuation cases of `Next`: one character, or `**`. */
    method ReadOperator()
      requires Valid() && (Scanner.SingleCharToken(bufNext).Some? || bufNext == '*' as int)
      modifies this
      ensures Valid() && curDigit == old(curDigit)
      ensures curId == old(curId) && curIdLower == old(curIdLower)
      ensures Scanner.SingleCharToken(old(bufNext)).Some? ==>
                position == old(position) + 1 && curToken == Scanner.SingleCharToken(old(bufNext)).value
      ensures old(bufNext) == '*' as int ==>
                if At(input, old(position) + 1) == '*' as int then position == old(position) + 2 && curToken == Power
                else position == old(position) + 1 && curToken == Mul
    {
      var ct := bufNext;
      var discarded: int;
      if ct == ';' as int {
        discarded := ReadNext();
        curToken := Semico;
      } else if ct == '(' as int {
        discarded := ReadNext();
        curToken := LeftBracket;
      } else if ct == ')' as int {
        discarded := ReadNext();
        curToken := RightBracket;
      } else if ct == '{' as int {
        discarded := ReadNext();
        curToken := LeftBrace;
      } else if ct == '}' as int {
        discarded := ReadNext();
        curToken := RightBrace;
      } else if ct == ',' as int {
        discarded := ReadNext();
        curToken := Comma;
      } else if ct == '+' as int {
        discarded := ReadNext();
        curToken := Plus;
      } else if ct == '-' as int {
        discarded := ReadNext();
        curToken := Minus;
      } else if ct == '*' as int {
        discarded := ReadNext();
        if bufNext == '*' as int {
          discarded := ReadNext();
          curToken := Power;
        } else {
          curToken := Mul;
        }
      } else if ct == '/' as int {
        discarded := ReadNext();
        curToken := Div;
      }
    }

    /**
     * `Next`: skip blanks and `//` or `--` comments, then read one token into
     * `curToken` and its payload. Returns the exception, if one is raised.
     */
    method Next() returns (err: Option<ParseError>)
      requires Valid()
      modifies this
      ensures Valid()
      ensures match Scanner.Next(old(State()))
              case Success(s) => err == None && State() == s
              case Failure(e) => err == Some(e)
    {
      SkipBlanksAndComments();
      err := ReadToken();
    }

    /** The second half of `Next`: read the token that starts at `position`. */
    method ReadToken() returns (err: Option<ParseError>)
      requires Valid()
      modifies this
      ensures Valid()
      ensures match Scanner.NextAt(old(State()))
              case Success(s) => err == None && State() == s
              case Failure(e) => err == Some(e)
    {
      var ct := bufNext;
      if ct == -1 {
        curToken := EOF;
        return None;
      } else if Scanner.SingleCharToken(ct).Some? || ct == '*' as int {
        ReadOperator();
        return None;
      } else if IsDigit(ct) {
        curToken := DigitLiteral;
        var d := ParseDigit();
        if d.Failure? {
          return Some(d.error);
        }
        curDigit := d.value;
        return None;
      } else if IsIdentifyStart(ct) {
        ReadIdentifier();
        return None;
      } else {
        return Some(LexcialException(position, line, row + 1, UnexpectedCharacter(ct)));
      }
    }
  }
}
