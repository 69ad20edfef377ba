/** Properties of the lexer specification (module Scanner). */
module ScannerFacts {
  import opened Wrappers
  import opened Chars
  import opened Tokens
  import opened Scanner

  /** Consuming one more character raises the line counter exactly when that character is a newline. */
  lemma LineAtStep(input: Text, p: nat)
    requires p < |input|
    ensures LineAt(input, p + 1) == LineAt(input, p) + (if input[p] == '\n' as int then 1 else 0)
  {
    assert input[..p + 1][..p] == input[..p];
  }

  /** The line counter starts at 1. */
  lemma LineAtStart(input: Text)
    ensures LineAt(input, 0) == 1
  {
    assert input[..0] == [];
  }

  /** One more integer digit multiplies the value so far by ten and adds the digit. */
  lemma DecimalValueStep(input: Text, q: nat, p: nat)
    requires q <= p < |input| && forall k | q <= k <= p :: IsDigit(input[k])
    ensures AllDigits(input[q..p]) && AllDigits(input[q..p + 1])
    ensures DecimalValue(input[q..p + 1]) == DecimalValue(input[q..p]) * 10 + DigitValue(input[p])
  {
    assert input[q..p + 1][..p - q] == input[q..p];
  }

  /** One more fraction digit adds that digit weighted by the next power of one tenth. */
  lemma FracValueStep(input: Text, f: nat, p: nat)
    requires f <= p < |input| && forall k | f <= k <= p :: IsDigit(input[k])
    ensures AllDigits(input[f..p]) && AllDigits(input[f..p + 1])
    ensures FracValue(input[f..p + 1]) == FracValue(input[f..p]) + Tenth(p + 1 - f) * DigitValue(input[p]) as real
  {
    assert input[f..p + 1][..p - f] == input[f..p];
  }

  /** One turn of the fraction loop: `pow *= 0.1; dec += pow * digit` keeps `dec` the value of the digits read. */
  lemma FracLoopStep(input: Text, f: nat, p: nat, dec: real, pow: real, c: int, pow': real, dec': real)
    requires f <= p < |input| && forall k | f <= k <= p :: IsDigit(input[k])
    requires dec == FracValue(input[f..p]) && pow == Tenth(p - f)
    requires c == input[p] && pow' == pow * 0.1 && dec' == dec + pow' * (c - '0' as int) as real
    ensures pow' == Tenth(p + 1 - f)
    ensures dec' == FracValue(input[f..p + 1])
  {
    FracValueStep(input, f, p);
  }

  /** Where the next token starts: the position after skipping from `s.position`. */
  function TokenStart(s: Cursor): (q: nat)
    ensures s.position <= q <= |s.input|
  {
    SkipEnd(s.input, s.position)
  }

  /** A blank before the next token changes nothing: `Next` from just after it gives the same result. */
  lemma BlankIsSkipped(s: Cursor)
    requires s.position < |s.input| && IsBlank(s.input[s.position])
    ensures Next(s) == Next(s.(position := s.position + 1))
  {
  }

  /**
   * A comment before the next token changes nothing: `Next` from the end of
   * its line (just past the newline, or the end of input) gives the same result.
   */
  lemma CommentIsSkipped(s: Cursor)
    requires IsCommentStart(s.input, s.position)
    ensures Next(s) == Next(s.(position := LineEnd(s.input, s.position)))
  {
    assert !IsBlank(s.input[s.position]);
  }

  /**
   * At the end of input `Next` gives `EOF` without consuming anything, and
   * calling it again gives the same state.
   */
  lemma EofIsSticky(s: Cursor)
    requires Next(s).Success? && Next(s).value.token == EOF
    ensures Next(s).value.position == |s.input|
    ensures Next(Next(s).value) == Next(s)
  {
  }

  /** A one-character token consumes exactly that character. */
  lemma SingleCharacterToken(s: Cursor)
    requires SingleCharToken(At(s.input, TokenStart(s))).Some?
    ensures Next(s) == Success(s.(position := TokenStart(s) + 1,
                                  token := SingleCharToken(At(s.input, TokenStart(s))).value))
  {
  }

  /** `*` is `Power` exactly when another `*` follows it, and the token consumes the stars it is made of. */
  lemma StarIsMaximalMunch(s: Cursor)
    requires At(s.input, TokenStart(s)) == '*' as int
    ensures Next(s).Success?
    ensures Next(s).value.token == Power <==> At(s.input, TokenStart(s) + 1) == '*' as int
    ensures Next(s).value.token == Power || Next(s).value.token == Mul
    ensures Next(s).value.position == TokenStart(s) + (if Next(s).value.token == Power then 2 else 1)
  {
  }

  /** The fraction digits are worth less than one: at most one minus the weight of the last digit. */
  lemma {:induction false} FracValueBelowOne(ds: Text)
    requires AllDigits(ds)
    ensures 0.0 <= FracValue(ds) <= 1.0 - Tenth(|ds|)
    decreases |ds|
  {
    if ds != [] {
      var init := ds[..|ds| - 1];
      assert AllDigits(init);
      FracValueBelowOne(init);
      var w := Tenth(|ds|);
      var x := w * DigitValue(ds[|ds| - 1]) as real;
      assert Tenth(|init|) == 10.0 * w;
      assert FracValue(ds) == FracValue(init) + x;
      WeightedDigitBounds(w, DigitValue(ds[|ds| - 1]));
      assert 0.0 <= x <= 9.0 * w;
    }
  }

  lemma WeightedDigitBounds(w: real, d: nat)
    requires 0.0 < w && d <= 9
    ensures 0.0 <= w * d as real <= 9.0 * w
  {
  }

  /**
   * A literal that scans is worth its integer digits plus a fraction below
   * one, so its integer part is the value of the digits before the point.
   * The point right after the integer digits is consumed even when no digit
   * follows it.
   */
  lemma NumberValue(input: Text, q: nat)
    requires q < |input| && IsDigit(input[q])
    ensures var e := DigitRunEnd(input, q);
            var hasPoint := At(input, e) == '.' as int;
            var f := if hasPoint then DigitRunEnd(input, e + 1) else e;
            && (hasPoint ==> e + 1 <= f)
            && (ScanNumber(input, q).Success? <==> !IsIdentifyCharacter(At(input, f)))
            && (ScanNumber(input, q).Success? ==>
                  ScanNumber(input, q).value.1 == f &&
                  ScanNumber(input, q).value.0.Floor == DecimalValue(input[q..e]) &&
                  (!hasPoint ==> ScanNumber(input, q).value.0 == DecimalValue(input[q..e]) as real))
  {
    var e := DigitRunEnd(input, q);
    if At(input, e) == '.' as int {
      var f := DigitRunEnd(input, e + 1);
      FracValueBelowOne(input[e + 1..f]);
    }
  }

  /**
   * A literal followed by an identifier character is an error at the
   * character after the literal, reported with row 0.
   */
  lemma NumberFollowedByLetter(input: Text, q: nat)
    requires q < |input| && IsDigit(input[q])
    requires ScanNumber(input, q).Failure?
    ensures var err := ScanNumber(input, q).error;
            err.LexcialException? && err.row == RowCounter && err.description.NotValidFollowing? &&
            IsIdentifyCharacter(err.description.c) && err.description.c == At(input, err.position) &&
            q < err.position && err.line == LineAt(input, err.position)
  {
  }

  /**
   * The keyword search: the token is the keyword at index i exactly when the
   * folded text is the i-th entry of the list, and `Identifier` exactly when
   * it is none of them.
   */
  lemma KeywordTokenExact(lower: Text)
    ensures forall i | 0 <= i < |KeywordList| :: KeywordToken(lower) == KeywordAt(i) <==> lower == KeywordList[i]
    ensures KeywordToken(lower) == Identifier <==> lower !in KeywordList
    ensures KeywordToken(lower) == Identifier || IsKeyword(KeywordToken(lower))
  {
    KeywordsDistinct();
    KeywordFromExact(lower, 0);
  }

  lemma {:induction false} KeywordFromExact(lower: Text, j: nat)
    requires j <= |KeywordList|
    requires forall i, k | 0 <= i < k < |KeywordList| :: KeywordList[i] != KeywordList[k] && KeywordAt(i) != KeywordAt(k)
    ensures forall i | j <= i < |KeywordList| :: KeywordFrom(lower, j) == KeywordAt(i) <==> lower == KeywordList[i]
    ensures KeywordFrom(lower, j) == Identifier <==> forall i | j <= i < |KeywordList| :: lower != KeywordList[i]
    ensures KeywordFrom(lower, j) == Identifier || IsKeyword(KeywordFrom(lower, j))
    decreases |KeywordList| - j
  {
    if j < |KeywordList| {
      KeywordFromExact(lower, j + 1);
    }
  }

  /** No two keywords share a spelling, and the keyword tokens are pairwise different too. */
  lemma KeywordsDistinct()
    ensures forall i, j | 0 <= i < j < |KeywordList| :: KeywordList[i] != KeywordList[j] && KeywordAt(i) != KeywordAt(j)
  {
    assert KeywordList[0][0] == 'i' as int && KeywordList[1][0] == 'f' as int && KeywordList[2][0] == 'f' as int;
    assert KeywordList[3][0] == 't' as int && KeywordList[4][0] == 's' as int;
    assert |KeywordList[1]| == 3 && |KeywordList[2]| == 4;
    assert |KeywordList[0]| == 2 && |KeywordList[3]| == 2;
  }

  /**
   * An identifier is the maximal run of identifier characters at the token
   * start; its folded text is kept beside it and decides the token.
   */
  lemma IdentifierIsMaximalRun(s: Cursor)
    requires IsIdentifyStart(At(s.input, TokenStart(s)))
    ensures Next(s).Success?
    ensures var t := Next(s).value;
            var q := TokenStart(s);
            && q < t.position && t.id == s.input[q..t.position]
            && (forall k | q <= k < t.position :: IsIdentifyCharacter(s.input[k]))
            && !IsIdentifyCharacter(At(s.input, t.position))
            && t.idLower == ToLower(t.id) && t.token == KeywordToken(t.idLower)
            && t.digit == s.digit
  {
    var q := TokenStart(s);
    assert !IsDigit(At(s.input, q)) && At(s.input, q) != '*' as int;
    StartIsIdentifyCharacter(s.input[q]);
  }

  /**
   * Any other character is an "unexpected character" error at its own
   * position, with the row counter plus one.
   */
  lemma UnexpectedCharacterError(s: Cursor)
    requires var c := At(s.input, TokenStart(s));
             c != -1 && SingleCharToken(c).None? && c != '*' as int && !IsDigit(c) && !IsIdentifyStart(c)
    ensures Next(s) == Failure(LexcialException(TokenStart(s), LineAt(s.input, TokenStart(s)), 1,
                                                UnexpectedCharacter(At(s.input, TokenStart(s)))))
  {
  }

  /** The only errors `Next` raises are the two lexical ones. */
  lemma NextErrors(s: Cursor)
    requires Next(s).Failure?
    ensures Next(s).error.LexcialException?
    ensures Next(s).error.description.NotValidFollowing? || Next(s).error.description.UnexpectedCharacter?
    ensures Next(s).error.description.UnexpectedCharacter? ==> Next(s).error.row == RowCounter + 1
  {
  }

  /**
   * `FormatCurrentToken` shows a literal's value and an identifier in quotes;
   * for every other token it agrees with `FormatToken`, and no token of the
   * enum formats as "<unknown>".
   */
  lemma CurrentTokenText(s: LexState, formatDouble: real -> string, identifierText: Text -> string)
    ensures var text := ShownText(FormatCurrentToken(s), formatDouble, identifierText);
            && (s.token != DigitLiteral && s.token != Identifier ==> text == FormatToken(Ordinal(s.token)))
            && (s.token == DigitLiteral ==> text == formatDouble(s.digit))
            && (s.token == Identifier ==> text == "\"" + identifierText(s.id) + "\"")
    ensures FormatToken(Ordinal(s.token)) != "<unknown>"
  {
    FormatTokenUnknown(Ordinal(s.token));
    TokenOfOrdinal(s.token);
  }
}
