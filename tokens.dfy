/** The `Token` record of the calculator and the one-character classification
    table the tokeniser uses for every character that is not a digit. */
module Tokens {

  /** `Token::Type`. `Unknown` is the zero value of the enum; `Dot` is the
      transient marker the converter glues onto the preceding number. */
  datatype TokenType = Unknown | Number | Operator | LeftParen | RightParen | Dot

  /** A token: its kind, its text, and the precedence and associativity that
      only operators use (the constructor's defaults are -1 and false). */
  datatype Token = Token(kind: TokenType, str: string, precedence: int, rightAssociative: bool)

  /** `isdigit` on the characters of the expression (the "C" locale). */
  predicate IsDigit(c: char) {
    '0' <= c <= '9'
  }

  predicate IsDigits(s: string) {
    forall k :: 0 <= k < |s| ==> IsDigit(s[k])
  }

  /** The characters the table maps to an operator. */
  predicate IsOperatorChar(c: char) {
    c == '^' || c == '*' || c == '/' || c == '+' || c == '-'
  }

  /** A number token as the tokeniser builds it: default precedence and
      associativity. */
  function NumberToken(s: string): (t: Token)
    ensures t.kind == Number && t.str == s
    ensures t.precedence == -1 && !t.rightAssociative
  {
    Token(Number, s, -1, false)
  }

  /** The switch on a non-digit character: a one-character token whose type,
      precedence and associativity come from the table. */
  function Classify(c: char): (t: Token)
    ensures t.str == [c]
    ensures t.kind != Number
    ensures t.kind == Operator <==> IsOperatorChar(c)
    ensures t.kind == Unknown <==> !IsOperatorChar(c) && c != '.' && c != '(' && c != ')'
    ensures t.rightAssociative <==> c == '^'
    ensures t.kind != Operator ==> t.precedence == -1
    ensures t.kind == Operator ==> 2 <= t.precedence <= 4
  {
    var (kind, precedence, rightAssociative) :=
      match c
      case '.' => (Dot, -1, false)
      case '(' => (LeftParen, -1, false)
      case ')' => (RightParen, -1, false)
      case '^' => (Operator, 4, true)
      case '*' => (Operator, 3, false)
      case '/' => (Operator, 3, false)
      case '+' => (Operator, 2, false)
      case '-' => (Operator, 2, false)
      case _ => (Unknown, -1, false);
    Token(kind, [c], precedence, rightAssociative)
  }

  /** The precedence ladder of the table: `^` binds tighter than `*` and `/`,
      which bind tighter than `+` and `-`; operators of one rung share a
      precedence; and the parenthesis kinds rank below every operator. */
  lemma PrecedenceLadder()
    ensures Classify('^').precedence > Classify('*').precedence > Classify('+').precedence
    ensures Classify('*').precedence == Classify('/').precedence
    ensures Classify('+').precedence == Classify('-').precedence
    ensures Classify('(').precedence < Classify('+').precedence
    ensures Classify('^').kind == Operator && Classify('^').precedence == 4
    ensures Classify('.').kind == Dot && Classify('(').kind == LeftParen && Classify(')').kind == RightParen
  {
  }

  /** What the converter relies on about precedences: operators rank at or
      above zero and left parentheses below it, so that no operator rule ever
      moves a `(` to the output. Every token the tokeniser builds is ranked. */
  predicate Ranked(t: Token) {
    (t.kind == Operator ==> t.precedence >= 0) && (t.kind == LeftParen ==> t.precedence < 0)
  }

  /** A token exactly as the tokeniser builds it. */
  predicate TableToken(t: Token) {
    (t.kind == Number && t == NumberToken(t.str)) || (|t.str| == 1 && t == Classify(t.str[0]))
  }

  lemma TableTokenIsRanked(t: Token)
    requires TableToken(t)
    ensures Ranked(t)
  {
  }
}
