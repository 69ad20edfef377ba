/**
 * Characters as the lexer sees them: the integer codes a TextReader hands
 * out (UTF-16 code units, 0 to 0xFFFF), with -1 standing for end of input.
 */
module Chars {

  type CharCode = c: int | 0 <= c < 0x1_0000

  /** Text as a sequence of character codes (a C# string). */
  type Text = seq<CharCode>

  /** The code at index p, or -1 past the end: what TextReader.Read returns there. */
  function At(input: Text, p: nat): (c: int)
    ensures c == -1 <==> p >= |input|
    ensures p < |input| ==> c == input[p]
  {
    if p < |input| then input[p] else -1
  }

  /** The codes of a string literal whose characters all fit one UTF-16 code unit. */
  function Codes(s: string): (t: Text)
    requires forall i | 0 <= i < |s| :: s[i] as int < 0x1_0000
    ensures |t| == |s|
    ensures forall i | 0 <= i < |s| :: t[i] == s[i] as int
  {
    if s == [] then [] else [s[0] as int as CharCode] + Codes(s[1..])
  }

  predicate IsDigit(c: int) {
    '0' as int <= c <= '9' as int
  }

  predicate IsAsciiLetter(c: int) {
    ('A' as int <= c <= 'Z' as int) || ('a' as int <= c <= 'z' as int)
  }

  /** Space, newline, carriage return and tab: what the lexer skips between tokens. */
  predicate IsBlank(c: int) {
    c == ' ' as int || c == '\n' as int || c == '\r' as int || c == '\t' as int
  }

  /** A letter, an underscore or any code from 128 up may start an identifier. */
  predicate IsIdentifyStart(c: int) {
    IsAsciiLetter(c) || c == '_' as int || c >= 128
  }

  /** An identifier continues with letters, digits, underscores and codes from 128 up. */
  predicate IsIdentifyCharacter(c: int) {
    IsAsciiLetter(c) || c == '_' as int || IsDigit(c) || c >= 128
  }

  /**
   * Lowercasing of one code. String.ToLower is culture-sensitive on non-ASCII
   * characters; the model folds the ASCII capitals only.
   */
  function LowerCode(c: CharCode): CharCode {
    if 'A' as int <= c <= 'Z' as int then c + 32 else c
  }

  function ToLower(s: Text): (r: Text)
    ensures |r| == |s|
    ensures forall i | 0 <= i < |s| :: r[i] == LowerCode(s[i])
  {
    if s == [] then [] else [LowerCode(s[0])] + ToLower(s[1..])
  }

  /** Lowercasing twice is lowercasing once, so a folded name folds to itself. */
  lemma ToLowerIdempotent(s: Text)
    ensures ToLower(ToLower(s)) == ToLower(s)
  {
  }

  /** Every character that may start an identifier may also continue one. */
  lemma StartIsIdentifyCharacter(c: int)
    ensures IsIdentifyStart(c) ==> IsIdentifyCharacter(c)
  {
  }
}
