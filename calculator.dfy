/** The front half of `calculator`: the expression is normalised in place,
    tokenised, and converted to postfix order. */
module Calculator {
  import opened Tokens
  import opened Normalizer
  import opened Tokenizer
  import opened Converter

  /** The postfix queue `calculator` hands to its evaluation loop, or the
      error that stops it. */
  function Postfix(expr: string): Result<seq<Token>> {
    Convert(Tokenize(Formatted(expr)))
  }

  /** The first three statements of `calculator`: `FormatString` on the
      caller's string, which stays normalised afterwards, then
      `ExprToTokens` and `ShuntingYard`. */
  method ToPostfix(expr: Text) returns (r: Result<seq<Token>>)
    requires expr.Valid()
    modifies expr, expr.chars
    ensures expr.Valid() && expr.Contents() == Formatted(old(expr.Contents()))
    ensures r == Postfix(old(expr.Contents()))
  {
    FormatString(expr);
    var tokens := ExprToTokens(expr.Contents());
    r := ShuntingYard(tokens);
  }

  /** The front half in three stages: what the normaliser leaves, the
      tokens of that, and a successful loop whose flush gives `out`. */
  lemma PostfixOf(expr: string, clean: string, ts: seq<Token>, st: State, out: seq<Token>)
    requires Formatted(expr) == clean && Tokenize(clean) == ts
    requires Run(Start, ts) == Ok(st) && Flush(st.stack, st.queue) == Ok(out)
    ensures Postfix(expr) == Ok(out)
  {
  }

  /** Whitespace insensitivity of the whole front half. */
  lemma PostfixIgnoresSpace(a: string, b: string)
    ensures Postfix(a + [' '] + b) == Postfix(a + b)
  {
    FormattedIgnoresSpace(a, b);
  }

  /** Every token that reaches the converter is ranked, so a successful
      conversion of any expression outputs only numbers and operators, and an
      expression with more `(` than `)` never converts. */
  lemma PostfixShape(expr: string)
    ensures Postfix(expr).Ok? ==> OutputQueue(Postfix(expr).value)
    ensures Postfix(expr).Ok? ==>
              Count(Tokenize(Formatted(expr)), LeftParen) <= Count(Tokenize(Formatted(expr)), RightParen)
  {
    var ts := Tokenize(Formatted(expr));
    TokenizeShape(Formatted(expr));
    forall k | 0 <= k < |ts|
      ensures Ranked(ts[k])
    {
      TableTokenIsRanked(ts[k]);
    }
    ConvertOutputsNumbersAndOperators(ts);
    ConvertClosesEveryParen(ts);
  }

  /** A letter, or any other character outside the table, makes the whole
      front half fail. */
  lemma PostfixRejectsUnknownChar(a: string, c: char, b: string)
    requires !IsDigit(c) && c != '\0' && c != ' ' && c != ','
    requires Classify(c).kind == Unknown
    requires '\0' !in a
    ensures Postfix(a + [c] + b).Err?
  {
    var s := Formatted(a + [c] + b);
    FormattedAppend(a + [c], b);
    FormattedAppend(a, [c]);
    assert Formatted([c]) == [c];
    var fa := Formatted(a);
    assert s == fa + [c] + Formatted(b);
    assert '\0' !in fa by {
      FormattedNoNul(a);
    }
    var ts := Tokenize(s);
    TokenizePartitions(s);
    TokenizeShape(s);
    var i := UnknownTokenIndex(s, |fa|);
    ConvertRejectsUnknown(ts, i);
  }

  /** In an expression that starts with a digit and has only digits,
      points, operators, `(` and spaces before its first character outside
      the table, that character is the error the front half reports. */
  lemma PostfixStopsAtUnknownChar(a: string, c: char, b: string)
    requires a != [] && IsDigit(a[0])
    requires forall k :: 0 <= k < |a| ==> IsOpenChar(a[k]) || a[k] == ' '
    requires !IsDigit(c) && c != '\0' && c != ' ' && c != ','
    requires Classify(c).kind == Unknown
    ensures Postfix(a + [c] + b) == Err(UnknownToken(Classify(c)))
  {
    var fa, fb := Formatted(a), Formatted(b);
    assert Formatted(a + [c] + b) == fa + ([c] + fb) by {
      FormattedAppend(a + [c], b);
      FormattedAppend(a, [c]);
      assert WithoutSpaces([c]) == [c] + WithoutSpaces([]);
    }
    FormattedOpen(a);
    TokenizeAppend(fa, [c] + fb);
    TokenizeCharThen(c, fb);
    var ts := Tokenize(fa);
    RunOpen(fa);
    RunStopsAtUnknown(Start, ts, Classify(c), Tokenize(fb));
    assert ts + ([Classify(c)] + Tokenize(fb)) == ts + [Classify(c)] + Tokenize(fb);
  }

  /** Normalising a text of digits, points, operators, `(` and spaces that
      starts with a digit leaves a text of the same characters without the
      spaces, still starting with that digit. */
  lemma FormattedOpen(a: string)
    requires a != [] && IsDigit(a[0])
    requires forall k :: 0 <= k < |a| ==> IsOpenChar(a[k]) || a[k] == ' '
    ensures Formatted(a) != [] && Formatted(a)[0] == a[0] && '\0' !in Formatted(a)
    ensures forall k :: 0 <= k < |Formatted(a)| ==> IsOpenChar(Formatted(a)[k])
  {
    var w := WithoutSpaces(a);
    WithoutSpacesSubset(a);
    assert Formatted(a) == w by {
      assert ',' !in w;
    }
    assert w == [a[0]] + WithoutSpaces(a[1..]) by {
      assert a == [a[0]] + a[1..];
    }
    forall k | 0 <= k < |w|
      ensures IsOpenChar(w[k])
    {
      assert w[k] in a && w[k] != ' ';
    }
  }

  /** The loop over the tokens of such a text succeeds: its first token is a
      number, and no `)` or unknown token follows. */
  lemma RunOpen(s: string)
    requires s != [] && IsDigit(s[0])
    requires forall k :: 0 <= k < |s| ==> IsOpenChar(s[k])
    ensures Run(Start, Tokenize(s)).Ok?
  {
    TokenizeOpenKinds(s);
    var n := DigitRun(s);
    var t := NumberToken(s[..n]);
    assert Tokenize(s) == [t] + Tokenize(s[n..]);
    StepNumberFirst(Start, t);
    RunCons(Start, t, Tokenize(s[n..]));
    RunWithoutCloseParen(Start.(queue := [t]), Tokenize(s[n..]));
  }

  /** The last expression `main` converts: the letter `a` stops it. */
  lemma LettersRejected()
    ensures Postfix("1.1 + 2.1 + abc") == Err(UnknownToken(Classify('a')))
  {
    LettersSplit();
    PostfixStopsAtUnknownChar("1.1 + 2.1 + ", 'a', "bc");
  }

  lemma LettersSplit()
    ensures "1.1 + 2.1 + abc" == "1.1 + 2.1 + " + ['a'] + "bc"
  {
  }

  lemma FormattedNoNul(s: string)
    requires '\0' !in s
    ensures '\0' !in Formatted(s)
  {
    if '\0' in Formatted(s) {
      var k :| 0 <= k < |Formatted(s)| && Formatted(s)[k] == '\0';
      var w := WithoutSpaces(s);
      assert w[k] == '\0';
      WithoutSpacesSubset(s);
    }
  }

  lemma {:induction false} WithoutSpacesSubset(s: string)
    ensures forall c :: c in WithoutSpaces(s) ==> c in s
    decreases |s|
  {
    if s != [] {
      WithoutSpacesSubset(s[1..]);
    }
  }

  /** The scan reaches a non-digit character that stands before every NUL,
      and builds its table token there. */
  lemma {:induction false} UnknownTokenIndex(s: string, p: nat) returns (i: nat)
    requires p < |s| && !IsDigit(s[p]) && s[p] != '\0' && '\0' !in s[..p]
    ensures i < |Tokenize(s)| && Tokenize(s)[i] == Classify(s[p])
    decreases |s|
  {
    if p == 0 {
      TokenizeOtherHead(s);
      i := 0;
    } else if IsDigit(s[0]) {
      var n := DigitRun(s);
      assert n <= p;
      TokenizeNumberHead(s, n);
      assert s[n..][..p - n] == s[..p][n..];
      var j := UnknownTokenIndex(s[n..], p - n);
      i := j + 1;
    } else {
      assert s[0] == s[..p][0];
      TokenizeOtherHead(s);
      assert s[1..][..p - 1] == s[..p][1..];
      var j := UnknownTokenIndex(s[1..], p - 1);
      i := j + 1;
    }
  }

  // ---------------------------------------------------------------------
  // Grouping of two binary operators

  /** A non-empty run of decimal digits. */
  predicate Numeral(s: string) {
    |s| > 0 && IsDigits(s)
  }

  lemma NumeralHasNoDot(x: string)
    requires Numeral(x)
    ensures '.' !in x
  {
  }

  lemma TokenizeNumeral(x: string)
    requires Numeral(x)
    ensures Tokenize(x) == [NumberToken(x)]
  {
    assert x + [] == x;
    TokenizeNumeralThen(x, []);
  }

  /** A numeral holds none of the characters the front half treats
      specially. */
  lemma NumeralIsPlain(d: string)
    requires Numeral(d)
    ensures '\0' !in d && ' ' !in d && ',' !in d
  {
  }

  /** A non-digit character appended to a NUL-free string is one more token. */
  lemma TokenizeThenChar(p: string, c: char)
    requires '\0' !in p && !IsDigit(c) && c != '\0'
    ensures Tokenize(p + [c]) == Tokenize(p) + [Classify(c)]
  {
    TokenizeAppend(p, [c]);
    assert [c] + [] == [c];
    TokenizeCharThen(c, []);
  }

  /** A numeral appended after a non-digit is one more token. */
  lemma TokenizeThenNumeral(p: string, d: string)
    requires '\0' !in p && p != [] && !IsDigit(p[|p| - 1]) && Numeral(d)
    ensures Tokenize(p + d) == Tokenize(p) + [NumberToken(d)]
  {
    TokenizeAppend(p, d);
    TokenizeNumeral(d);
  }

  /** A numeral, a non-digit and a numeral are three tokens. */
  lemma TokenizeThree(x: string, c: char, y: string)
    requires Numeral(x) && Numeral(y) && !IsDigit(c) && c != '\0'
    ensures Tokenize(x + [c] + y) == [NumberToken(x), Classify(c), NumberToken(y)]
  {
    var p := x + [c];
    NumeralIsPlain(x);
    assert '\0' !in p && p[|p| - 1] == c;
    TokenizeNumeral(x);
    TokenizeThenChar(x, c);
    TokenizeThenNumeral(p, y);
    FlatOneOneOne(NumberToken(x), Classify(c), NumberToken(y));
  }

  lemma FlatOneOneOne(t0: Token, t1: Token, t2: Token)
    ensures [t0] + [t1] + [t2] == [t0, t1, t2]
  {
  }

  /** Three numerals separated by two non-digits are five tokens. */
  lemma TokenizeFive(x: string, c: char, y: string, d: char, z: string)
    requires Numeral(x) && Numeral(y) && Numeral(z)
    requires !IsDigit(c) && c != '\0' && !IsDigit(d) && d != '\0'
    ensures Tokenize(x + [c] + y + [d] + z)
            == [NumberToken(x), Classify(c), NumberToken(y), Classify(d), NumberToken(z)]
  {
    var p := x + [c] + y;
    NumeralIsPlain(x);
    NumeralIsPlain(y);
    assert '\0' !in p;
    TokenizeThree(x, c, y);
    TokenizeThenChar(p, d);
    TokenizeThenNumeral(p + [d], z);
    FlatThreeTwo(NumberToken(x), Classify(c), NumberToken(y), Classify(d), NumberToken(z));
  }

  lemma FlatThreeTwo(t0: Token, t1: Token, t2: Token, t3: Token, t4: Token)
    ensures [t0, t1, t2] + [t3] + [t4] == [t0, t1, t2, t3, t4]
  {
  }

  /** The postfix order of `(x a y) b z`. */
  function GroupLeft(x: string, a: char, y: string, b: char, z: string): seq<Token> {
    [NumberToken(x), NumberToken(y), Classify(a), NumberToken(z), Classify(b)]
  }

  /** The postfix order of `x a (y b z)`. */
  function GroupRight(x: string, a: char, y: string, b: char, z: string): seq<Token> {
    [NumberToken(x), NumberToken(y), NumberToken(z), Classify(b), Classify(a)]
  }

  /** `x a y b z` converts to the grouping precedence and associativity
      choose: the tighter operator groups first; between operators of one
      precedence, `+ - * /` group from the left and `^` from the right. */
  lemma TwoOperators(x: string, a: char, y: string, b: char, z: string)
    requires Numeral(x) && Numeral(y) && Numeral(z)
    requires IsOperatorChar(a) && IsOperatorChar(b)
    ensures Classify(a).precedence < Classify(b).precedence ==>
              Convert(Tokenize(x + [a] + y + [b] + z)) == Ok(GroupRight(x, a, y, b, z))
    ensures Classify(a).precedence > Classify(b).precedence ==>
              Convert(Tokenize(x + [a] + y + [b] + z)) == Ok(GroupLeft(x, a, y, b, z))
    ensures Classify(a).precedence == Classify(b).precedence && b != '^' ==>
              Convert(Tokenize(x + [a] + y + [b] + z)) == Ok(GroupLeft(x, a, y, b, z))
    ensures a == '^' && b == '^' ==>
              Convert(Tokenize(x + [a] + y + [b] + z)) == Ok(GroupRight(x, a, y, b, z))
  {
    TokenizeFive(x, a, y, b, z);
    ConvertTwoOperators(NumberToken(x), Classify(a), NumberToken(y), Classify(b), NumberToken(z));
  }

  /** `2^3^2` converts to `2 3 2 ^ ^`. */
  lemma PowerGroupsRight()
    ensures Postfix("2^3^2") == Ok([NumberToken("2"), NumberToken("3"), NumberToken("2"), Classify('^'), Classify('^')])
  {
    FormattedKeepsClean("2^3^2");
    assert "2^3^2" == "2" + ['^'] + "3" + ['^'] + "2";
    TwoOperators("2", '^', "3", '^', "2");
  }

  // ---------------------------------------------------------------------
  // Decimal gluing

  /** `x.y` converts to the single number `x.y`: the digits after the point
      are glued onto `x`, the last output token. */
  lemma DecimalIsOneNumber(x: string, y: string)
    requires Numeral(x) && Numeral(y)
    ensures Convert(Tokenize(x + ['.'] + y)) == Ok([NumberToken(x + ['.'] + y)])
  {
    TokenizeThree(x, '.', y);
    ConvertDecimal(NumberToken(x), Classify('.'), NumberToken(y));
  }

  /** In `x a y.z` the operator separates the numbers, and the point glues
      `z` onto `y`, not onto `x`. */
  lemma DecimalAfterOperator(x: string, a: char, y: string, z: string)
    requires Numeral(x) && Numeral(y) && Numeral(z) && IsOperatorChar(a)
    ensures Convert(Tokenize(x + [a] + y + ['.'] + z))
            == Ok([NumberToken(x), NumberToken(y + ['.'] + z), Classify(a)])
  {
    TokenizeFive(x, a, y, '.', z);
    ConvertDecimalAfterOperator(NumberToken(x), Classify(a), NumberToken(y), Classify('.'), NumberToken(z));
  }

  /** In `x.y a z` the operator stops the gluing: `z` stays a number of its
      own although the last output token holds a point. */
  lemma OperatorEndsDecimal(x: string, y: string, a: char, z: string)
    requires Numeral(x) && Numeral(y) && Numeral(z) && IsOperatorChar(a)
    ensures Convert(Tokenize(x + ['.'] + y + [a] + z))
            == Ok([NumberToken(x + ['.'] + y), NumberToken(z), Classify(a)])
  {
    TokenizeFive(x, '.', y, a, z);
    ConvertOperatorEndsDecimal(NumberToken(x), Classify('.'), NumberToken(y), Classify(a), NumberToken(z));
  }

  /** A leading operator keeps the flag raised through the first number,
      because the flag is only lowered when the queue was not empty: in
      `a x.y` the digits `y` are not glued, and `x.` and `y` come out as two
      numbers. */
  lemma LeadingOperatorSplitsDecimal(a: char, x: string, y: string)
    requires Numeral(x) && Numeral(y) && IsOperatorChar(a)
    ensures Convert(Tokenize([a] + x + ['.'] + y))
            == Ok([NumberToken(x + ['.']), NumberToken(y), Classify(a)])
  {
    assert Tokenize([a] + x + ['.'] + y) == [Classify(a), NumberToken(x), Classify('.'), NumberToken(y)] by {
      assert [a] + x + ['.'] + y == [a] + (x + ['.'] + y);
      TokenizeThree(x, '.', y);
      TokenizeCharThen(a, x + ['.'] + y);
    }
    ConvertLeadingOperator(Classify(a), NumberToken(x), Classify('.'), NumberToken(y));
  }
}
