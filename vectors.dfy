/** The first expression the demo driver converts, `3+4*2/(1-5)^2^3`,
    followed through the whole front half: the textbook postfix form
    `3 4 2 * 1 5 - 2 3 ^ ^ / +` comes out. Each parenthesised group of this
    expression holds a single operator, so the `)` branch as written does
    what was intended here. */
module Vectors {
  import opened Tokens
  import opened Normalizer
  import opened Tokenizer
  import opened Converter
  import opened Calculator

  function N(s: string): Token {
    NumberToken(s)
  }

  function C(c: char): Token {
    Classify(c)
  }

  /** The text `a+b*c/(d-e)^f^g`, for numerals `a` to `g`. */
  function FirstText(a: string, b: string, c: string, d: string, e: string, f: string, g: string): string {
    a + ['+'] + b + ['*'] + c + ['/'] + ['('] + d + ['-'] + e + [')'] + ['^'] + f + ['^'] + g
  }

  /** `a+b*c` scans to five tokens. */
  lemma TokenizeFirstPart(a: string, b: string, c: string)
    requires Numeral(a) && Numeral(b) && Numeral(c)
    ensures '\0' !in a + ['+'] + b + ['*'] + c
    ensures Tokenize(a + ['+'] + b + ['*'] + c) == [N(a), C('+'), N(b), C('*'), N(c)]
  {
    NumeralIsPlain(a); NumeralIsPlain(b); NumeralIsPlain(c);
    TokenizeNumeral(a);
    TokenizeThenChar(a, '+');
    TokenizeThenNumeral(a + ['+'], b);
    TokenizeThenChar(a + ['+'] + b, '*');
    TokenizeThenNumeral(a + ['+'] + b + ['*'], c);
    assert [N(a)] + [C('+')] + [N(b)] + [C('*')] + [N(c)] == [N(a), C('+'), N(b), C('*'), N(c)];
  }

  /** `/(d-e` after any NUL-free text adds five tokens. */
  lemma TokenizeMiddlePart(p: string, d: string, e: string)
    requires '\0' !in p && Numeral(d) && Numeral(e)
    ensures '\0' !in p + ['/'] + ['('] + d + ['-'] + e
    ensures Tokenize(p + ['/'] + ['('] + d + ['-'] + e)
            == Tokenize(p) + [C('/'), C('('), N(d), C('-'), N(e)]
  {
    NumeralIsPlain(d); NumeralIsPlain(e);
    TokenizeThenChar(p, '/');
    TokenizeThenChar(p + ['/'], '(');
    TokenizeThenNumeral(p + ['/'] + ['('], d);
    TokenizeThenChar(p + ['/'] + ['('] + d, '-');
    TokenizeThenNumeral(p + ['/'] + ['('] + d + ['-'], e);
    assert Tokenize(p) + [C('/')] + [C('(')] + [N(d)] + [C('-')] + [N(e)]
        == Tokenize(p) + [C('/'), C('('), N(d), C('-'), N(e)];
  }

  /** `)^f^g` after any NUL-free text adds five tokens. */
  lemma TokenizeLastPart(p: string, f: string, g: string)
    requires '\0' !in p && Numeral(f) && Numeral(g)
    ensures Tokenize(p + [')'] + ['^'] + f + ['^'] + g)
            == Tokenize(p) + [C(')'), C('^'), N(f), C('^'), N(g)]
  {
    NumeralIsPlain(f); NumeralIsPlain(g);
    TokenizeThenChar(p, ')');
    TokenizeThenChar(p + [')'], '^');
    TokenizeThenNumeral(p + [')'] + ['^'], f);
    TokenizeThenChar(p + [')'] + ['^'] + f, '^');
    TokenizeThenNumeral(p + [')'] + ['^'] + f + ['^'], g);
    assert Tokenize(p) + [C(')')] + [C('^')] + [N(f)] + [C('^')] + [N(g)]
        == Tokenize(p) + [C(')'), C('^'), N(f), C('^'), N(g)];
  }

  /** `a+b*c/(d-e)^f^g` scans to fifteen tokens, one per numeral and one
      per other character. */
  lemma TokenizeFirstText(a: string, b: string, c: string, d: string, e: string, f: string, g: string)
    requires Numeral(a) && Numeral(b) && Numeral(c) && Numeral(d)
    requires Numeral(e) && Numeral(f) && Numeral(g)
    ensures Tokenize(FirstText(a, b, c, d, e, f, g))
            == [N(a), C('+'), N(b), C('*'), N(c)]
               + [C('/'), C('('), N(d), C('-'), N(e)]
               + [C(')'), C('^'), N(f), C('^'), N(g)]
  {
    var p := a + ['+'] + b + ['*'] + c;
    TokenizeFirstPart(a, b, c);
    TokenizeMiddlePart(p, d, e);
    TokenizeLastPart(p + ['/'] + ['('] + d + ['-'] + e, f, g);
  }

  /** The first five tokens, `a + b * c`. */
  lemma RunFirstChunk(a: string, b: string, c: string)
    requires Numeral(a) && Numeral(b) && Numeral(c)
    ensures Run(Start, [N(a), C('+'), N(b), C('*'), N(c)])
            == Ok(State([N(a), N(b), N(c)], [C('+'), C('*')], false))
  {
    RunTwoOperators(N(a), C('+'), N(b), C('*'), N(c));
    assert [N(a), N(b)] + [N(c)] == [N(a), N(b), N(c)];
  }

  /** The next five, `/ ( d - e`: the `/` moves the `*` out and stops at
      the `+`; nothing passes the `(`. */
  lemma RunSecondChunk(a: string, b: string, c: string, d: string, e: string)
    ensures Run(State([N(a), N(b), N(c)], [C('+'), C('*')], false),
                [C('/'), C('('), N(d), C('-'), N(e)])
            == Ok(State([N(a), N(b), N(c), C('*'), N(d), N(e)], [C('+'), C('/'), C('('), C('-')], false))
  {
    var s0 := State([N(a), N(b), N(c)], [C('+'), C('*')], false);
    var s1 := State([N(a), N(b), N(c), C('*')], [C('+'), C('/')], true);
    var s2 := State([N(a), N(b), N(c), C('*')], [C('+'), C('/'), C('(')], true);
    var s3 := State([N(a), N(b), N(c), C('*'), N(d)], [C('+'), C('/'), C('(')], false);
    var s4 := State([N(a), N(b), N(c), C('*'), N(d)], [C('+'), C('/'), C('('), C('-')], true);
    var s5 := State([N(a), N(b), N(c), C('*'), N(d), N(e)], [C('+'), C('/'), C('('), C('-')], false);
    assert Step(s0, C('/')) == Ok(s1) by {
      StepOperatorPopOne(s0, C('/'));
      assert [N(a), N(b), N(c)] + [C('*')] == [N(a), N(b), N(c), C('*')];
      assert DropLast([C('+'), C('*')]) + [C('/')] == [C('+'), C('/')];
    }
    assert Step(s1, C('(')) == Ok(s2) by {
      StepLeftParen(s1, C('('));
      assert [C('+'), C('/')] + [C('(')] == [C('+'), C('/'), C('(')];
    }
    assert Step(s2, N(d)) == Ok(s3) by {
      StepNumberApart(s2, N(d));
      assert [N(a), N(b), N(c), C('*')] + [N(d)] == [N(a), N(b), N(c), C('*'), N(d)];
    }
    assert Step(s3, C('-')) == Ok(s4) by {
      StepOperatorPush(s3, C('-'));
      assert [C('+'), C('/'), C('(')] + [C('-')] == [C('+'), C('/'), C('('), C('-')];
    }
    assert Step(s4, N(e)) == Ok(s5) by {
      StepNumberApart(s4, N(e));
      assert [N(a), N(b), N(c), C('*'), N(d)] + [N(e)] == [N(a), N(b), N(c), C('*'), N(d), N(e)];
    }
    RunFive(s0, C('/'), s1, C('('), s2, N(d), s3, C('-'), s4, N(e), s5);
  }

  /** The last five, `) ^ f ^ g`: the `)` moves the `-` out and drops the
      `(`; each `^` stays on the stack above the other. */
  lemma RunThirdChunk(q: seq<Token>, f: string, g: string)
    ensures Run(State(q, [C('+'), C('/'), C('('), C('-')], false),
                [C(')'), C('^'), N(f), C('^'), N(g)])
            == Ok(State(q + [C('-'), N(f), N(g)], [C('+'), C('/'), C('^'), C('^')], false))
  {
    var s0 := State(q, [C('+'), C('/'), C('('), C('-')], false);
    var s1 := State(q + [C('-')], [C('+'), C('/')], false);
    var s2 := State(q + [C('-')], [C('+'), C('/'), C('^')], true);
    var s3 := State(q + [C('-'), N(f)], [C('+'), C('/'), C('^')], false);
    var s4 := State(q + [C('-'), N(f)], [C('+'), C('/'), C('^'), C('^')], true);
    var s5 := State(q + [C('-'), N(f), N(g)], [C('+'), C('/'), C('^'), C('^')], false);
    assert Step(s0, C(')')) == Ok(s1) by {
      assert DropLast(DropLast([C('+'), C('/'), C('('), C('-')])) == [C('+'), C('/')];
    }
    assert Step(s1, C('^')) == Ok(s2) by {
      StepOperatorPush(s1, C('^'));
      assert [C('+'), C('/')] + [C('^')] == [C('+'), C('/'), C('^')];
    }
    assert Step(s2, N(f)) == Ok(s3) by {
      StepNumberApart(s2, N(f));
      assert q + [C('-')] + [N(f)] == q + [C('-'), N(f)];
    }
    assert Step(s3, C('^')) == Ok(s4) by {
      StepOperatorPush(s3, C('^'));
      assert [C('+'), C('/'), C('^')] + [C('^')] == [C('+'), C('/'), C('^'), C('^')];
    }
    assert Step(s4, N(g)) == Ok(s5) by {
      StepNumberApart(s4, N(g));
      assert q + [C('-'), N(f)] + [N(g)] == q + [C('-'), N(f), N(g)];
    }
    RunFive(s0, C(')'), s1, C('^'), s2, N(f), s3, C('^'), s4, N(g), s5);
  }

  /** The loop over the tokens of `a+b*c/(d-e)^f^g`. */
  lemma RunFirstText(a: string, b: string, c: string, d: string, e: string, f: string, g: string)
    requires Numeral(a) && Numeral(b) && Numeral(c) && Numeral(d)
    requires Numeral(e) && Numeral(f) && Numeral(g)
    ensures Run(Start, [N(a), C('+'), N(b), C('*'), N(c)]
                       + [C('/'), C('('), N(d), C('-'), N(e)]
                       + [C(')'), C('^'), N(f), C('^'), N(g)])
            == Ok(State([N(a), N(b), N(c), C('*'), N(d), N(e)] + [C('-'), N(f), N(g)],
                        [C('+'), C('/'), C('^'), C('^')], false))
  {
    var c1 := [N(a), C('+'), N(b), C('*'), N(c)];
    var c2 := [C('/'), C('('), N(d), C('-'), N(e)];
    var c3 := [C(')'), C('^'), N(f), C('^'), N(g)];
    var q2 := [N(a), N(b), N(c), C('*'), N(d), N(e)];
    assert Run(Start, c1 + c2) == Ok(State(q2, [C('+'), C('/'), C('('), C('-')], false)) by {
      RunFirstChunk(a, b, c);
      RunSecondChunk(a, b, c, d, e);
      RunAppend(Start, c1, c2);
    }
    RunThirdChunk(q2, f, g);
    RunAppend(Start, c1 + c2, c3);
  }

  /** `a+b*c/(d-e)^f^g` converts to `a b c * d e - f g ^ ^ / +`: precedence,
      the right associativity of `^` and a parenthesised group with one
      operator in it. */
  lemma FirstTextPostfix(a: string, b: string, c: string, d: string, e: string, f: string, g: string)
    requires Numeral(a) && Numeral(b) && Numeral(c) && Numeral(d)
    requires Numeral(e) && Numeral(f) && Numeral(g)
    ensures Postfix(FirstText(a, b, c, d, e, f, g))
            == Ok([N(a), N(b), N(c), C('*'), N(d), N(e), C('-'), N(f), N(g),
                   C('^'), C('^'), C('/'), C('+')])
  {
    var text := FirstText(a, b, c, d, e, f, g);
    var ts := [N(a), C('+'), N(b), C('*'), N(c)] + [C('/'), C('('), N(d), C('-'), N(e)]
              + [C(')'), C('^'), N(f), C('^'), N(g)];
    var q := [N(a), N(b), N(c), C('*'), N(d), N(e)] + [C('-'), N(f), N(g)];
    var out := [N(a), N(b), N(c), C('*'), N(d), N(e), C('-'), N(f), N(g), C('^'), C('^'), C('/'), C('+')];
    assert Formatted(text) == text by {
      NumeralIsPlain(a); NumeralIsPlain(b); NumeralIsPlain(c); NumeralIsPlain(d);
      NumeralIsPlain(e); NumeralIsPlain(f); NumeralIsPlain(g);
      FormattedKeepsClean(text);
    }
    TokenizeFirstText(a, b, c, d, e, f, g);
    RunFirstText(a, b, c, d, e, f, g);
    FlushFirst(N(a), N(b), N(c), C('*'), N(d), N(e), C('-'), N(f), N(g), C('+'), C('/'), C('^'), C('^'));
    PostfixOf(text, text, ts, State(q, [C('+'), C('/'), C('^'), C('^')], false), out);
  }

  /** The flush at the end of the first expression. */
  lemma FlushFirst(t0: Token, t1: Token, t2: Token, t3: Token, t4: Token, t5: Token, t6: Token, t7: Token,
                   t8: Token, o0: Token, o1: Token, o2: Token, o3: Token)
    requires o0.kind != LeftParen && o1.kind != LeftParen && o2.kind != LeftParen && o3.kind != LeftParen
    ensures Flush([o0, o1, o2, o3], [t0, t1, t2, t3, t4, t5] + [t6, t7, t8])
            == Ok([t0, t1, t2, t3, t4, t5, t6, t7, t8, o3, o2, o1, o0])
  {
    FlushFour(o0, o1, o2, o3, [t0, t1, t2, t3, t4, t5] + [t6, t7, t8]);
    assert [t0, t1, t2, t3, t4, t5] + [t6, t7, t8] + [o3, o2, o1, o0]
        == [t0, t1, t2, t3, t4, t5, t6, t7, t8, o3, o2, o1, o0];
  }

  /** The first expression the demo driver converts, `3+4*2/(1-5)^2^3`. */
  lemma FirstExample()
    ensures Postfix(FirstText("3", "4", "2", "1", "5", "2", "3"))
            == Ok([N("3"), N("4"), N("2"), C('*'), N("1"), N("5"), C('-'), N("2"), N("3"),
                   C('^'), C('^'), C('/'), C('+')])
  {
    FirstTextPostfix("3", "4", "2", "1", "5", "2", "3");
  }

  // ---------------------------------------------------------------------
  // The second expression, `20    -30/  3 +4  *2   ^3`, without its spaces

  /** An operator and a numeral appended to a NUL-free text are two more
      tokens. */
  lemma TokenizeOperatorNumeral(p: string, o: char, d: string)
    requires '\0' !in p && IsOperatorChar(o) && Numeral(d)
    ensures '\0' !in p + [o] + d
    ensures Tokenize(p + [o] + d) == Tokenize(p) + [C(o), N(d)]
  {
    NumeralIsPlain(d);
    TokenizeThenChar(p, o);
    TokenizeThenNumeral(p + [o], d);
    assert Tokenize(p) + [C(o)] + [N(d)] == Tokenize(p) + [C(o), N(d)];
  }

  /** The text `a-b/c+d*e^f`, for numerals `a` to `f`. */
  function SecondText(a: string, b: string, c: string, d: string, e: string, f: string): string {
    a + ['-'] + b + ['/'] + c + ['+'] + d + ['*'] + e + ['^'] + f
  }

  /** `a-b/c+d*e^f` scans to eleven tokens. */
  lemma TokenizeSecondText(a: string, b: string, c: string, d: string, e: string, f: string)
    requires Numeral(a) && Numeral(b) && Numeral(c)
    requires Numeral(d) && Numeral(e) && Numeral(f)
    ensures Tokenize(SecondText(a, b, c, d, e, f))
            == [N(a), C('-'), N(b), C('/'), N(c)] + [C('+'), N(d), C('*'), N(e), C('^')] + [N(f)]
  {
    TokenizeSecondStart(a, b, c);
    TokenizeSecondEnd(a + ['-'] + b + ['/'] + c, d, e, f);
  }

  /** `a-b/c` scans to five tokens. */
  lemma TokenizeSecondStart(a: string, b: string, c: string)
    requires Numeral(a) && Numeral(b) && Numeral(c)
    ensures '\0' !in a + ['-'] + b + ['/'] + c
    ensures Tokenize(a + ['-'] + b + ['/'] + c) == [N(a), C('-'), N(b), C('/'), N(c)]
  {
    NumeralIsPlain(a);
    TokenizeNumeral(a);
    TokenizeOperatorNumeral(a, '-', b);
    TokenizeOperatorNumeral(a + ['-'] + b, '/', c);
    FlatPairs([N(a)], C('-'), N(b), C('/'), N(c));
  }

  /** `+d*e^f` after a NUL-free text adds six tokens. */
  lemma TokenizeSecondEnd(p: string, d: string, e: string, f: string)
    requires '\0' !in p && Numeral(d) && Numeral(e) && Numeral(f)
    ensures Tokenize(p + ['+'] + d + ['*'] + e + ['^'] + f)
            == Tokenize(p) + [C('+'), N(d), C('*'), N(e), C('^')] + [N(f)]
  {
    TokenizeOperatorNumeral(p, '+', d);
    TokenizeOperatorNumeral(p + ['+'] + d, '*', e);
    TokenizeOperatorNumeral(p + ['+'] + d + ['*'] + e, '^', f);
    RegroupPairs(Tokenize(p), C('+'), N(d), C('*'), N(e), C('^'), N(f));
  }

  lemma FlatPairs(x: seq<Token>, t1: Token, t2: Token, t3: Token, t4: Token)
    ensures x + [t1, t2] + [t3, t4] == x + [t1, t2, t3, t4]
  {
  }

  lemma RegroupPairs(x: seq<Token>, t1: Token, t2: Token, t3: Token, t4: Token, t5: Token, t6: Token)
    ensures x + [t1, t2] + [t3, t4] + [t5, t6] == x + [t1, t2, t3, t4, t5] + [t6]
  {
  }

  /** `+ d * e ^`, after `a - b / c`: the `+` moves both `/` and `-` out;
      `*` and `^` are pushed above it. */
  lemma RunSecondTextMiddle(q: seq<Token>, d: string, e: string)
    requires q != [] && Numeral(d)
    ensures Run(State(q, [C('-'), C('/')], false), [C('+'), N(d), C('*'), N(e), C('^')])
            == Ok(State(q + [C('/'), C('-'), N(d), N(e)], [C('+'), C('*'), C('^')], true))
  {
    var s0 := State(q, [C('-'), C('/')], false);
    var s1 := State(q + [C('/'), C('-')], [C('+')], true);
    var s2 := State(q + [C('/'), C('-'), N(d)], [C('+')], false);
    var s3 := State(q + [C('/'), C('-'), N(d)], [C('+'), C('*')], true);
    var s4 := State(q + [C('/'), C('-'), N(d), N(e)], [C('+'), C('*')], false);
    var s5 := State(q + [C('/'), C('-'), N(d), N(e)], [C('+'), C('*'), C('^')], true);
    assert Step(s0, C('+')) == Ok(s1) by {
      StepOperatorPopTwo(s0, C('+'));
    }
    assert Step(s1, N(d)) == Ok(s2) by {
      StepNumberApart(s1, N(d));
      assert q + [C('/'), C('-')] + [N(d)] == q + [C('/'), C('-'), N(d)];
    }
    assert Step(s2, C('*')) == Ok(s3) by {
      StepOperatorPush(s2, C('*'));
      assert [C('+')] + [C('*')] == [C('+'), C('*')];
    }
    assert Step(s3, N(e)) == Ok(s4) by {
      NumeralHasNoDot(d);
      assert Last(s3.queue) == N(d);
      StepNumberApart(s3, N(e));
      assert q + [C('/'), C('-'), N(d)] + [N(e)] == q + [C('/'), C('-'), N(d), N(e)];
    }
    assert Step(s4, C('^')) == Ok(s5) by {
      StepOperatorPush(s4, C('^'));
      assert [C('+'), C('*')] + [C('^')] == [C('+'), C('*'), C('^')];
    }
    RunFive(s0, C('+'), s1, N(d), s2, C('*'), s3, N(e), s4, C('^'), s5);
  }

  /** The loop over the tokens of `a-b/c+d*e^f`. */
  lemma RunSecondText(a: string, b: string, c: string, d: string, e: string, f: string)
    requires Numeral(a) && Numeral(b) && Numeral(c)
    requires Numeral(d) && Numeral(e) && Numeral(f)
    ensures Run(Start, [N(a), C('-'), N(b), C('/'), N(c)] + [C('+'), N(d), C('*'), N(e), C('^')] + [N(f)])
            == Ok(State([N(a), N(b), N(c), C('/'), C('-'), N(d), N(e), N(f)], [C('+'), C('*'), C('^')], false))
  {
    var c1 := [N(a), C('-'), N(b), C('/'), N(c)];
    var c2 := [C('+'), N(d), C('*'), N(e), C('^')];
    var q1 := [N(a), N(b), N(c)];
    var q2 := q1 + [C('/'), C('-'), N(d), N(e)];
    var stack := [C('+'), C('*'), C('^')];
    assert Run(Start, c1) == Ok(State(q1, [C('-'), C('/')], false)) by {
      RunTwoOperators(N(a), C('-'), N(b), C('/'), N(c));
      assert [N(a), N(b)] + [N(c)] == q1;
    }
    assert Run(Start, c1 + c2) == Ok(State(q2, stack, true)) by {
      RunSecondTextMiddle(q1, d, e);
      RunAppend(Start, c1, c2);
    }
    assert Run(Start, c1 + c2 + [N(f)]) == Ok(State(q2 + [N(f)], stack, false)) by {
      StepNumberApart(State(q2, stack, true), N(f));
      RunCons(State(q2, stack, true), N(f), []);
      assert [N(f)] + [] == [N(f)];
      RunAppend(Start, c1 + c2, [N(f)]);
    }
    assert q2 + [N(f)] == [N(a), N(b), N(c), C('/'), C('-'), N(d), N(e), N(f)];
  }

  /** `a-b/c+d*e^f` converts to `a b c / - d e f ^ * +`. */
  lemma SecondTextPostfix(a: string, b: string, c: string, d: string, e: string, f: string)
    requires Numeral(a) && Numeral(b) && Numeral(c)
    requires Numeral(d) && Numeral(e) && Numeral(f)
    ensures Postfix(SecondText(a, b, c, d, e, f))
            == Ok([N(a), N(b), N(c), C('/'), C('-'), N(d), N(e), N(f), C('^'), C('*'), C('+')])
  {
    var text := SecondText(a, b, c, d, e, f);
    var ts := [N(a), C('-'), N(b), C('/'), N(c)] + [C('+'), N(d), C('*'), N(e), C('^')] + [N(f)];
    var q := [N(a), N(b), N(c), C('/'), C('-'), N(d), N(e), N(f)];
    var out := [N(a), N(b), N(c), C('/'), C('-'), N(d), N(e), N(f), C('^'), C('*'), C('+')];
    assert Formatted(text) == text by {
      NumeralIsPlain(a); NumeralIsPlain(b); NumeralIsPlain(c);
      NumeralIsPlain(d); NumeralIsPlain(e); NumeralIsPlain(f);
      FormattedKeepsClean(text);
    }
    TokenizeSecondText(a, b, c, d, e, f);
    RunSecondText(a, b, c, d, e, f);
    assert Flush([C('+'), C('*'), C('^')], q) == Ok(out) by {
      FlushThree(C('+'), C('*'), C('^'), q);
      assert q + [C('^'), C('*'), C('+')] == out;
    }
    PostfixOf(text, text, ts, State(q, [C('+'), C('*'), C('^')], false), out);
  }

  /** The second expression the demo driver converts: its spaces are
      dropped, and `20-30/3+4*2^3` converts to `20 30 3 / - 4 2 3 ^ * +`. */
  lemma SecondExample()
    ensures Postfix(SecondText("20", "30", "3", "4", "2", "3"))
            == Ok([N("20"), N("30"), N("3"), C('/'), C('-'), N("4"), N("2"), N("3"),
                   C('^'), C('*'), C('+')])
  {
    SecondTextPostfix("20", "30", "3", "4", "2", "3");
  }

  // ---------------------------------------------------------------------
  // The third expression, `-1 + 5 - 3`, without its spaces

  /** The text `-a+b-c`, for numerals `a` to `c`. */
  function ThirdText(a: string, b: string, c: string): string {
    ['-'] + a + ['+'] + b + ['-'] + c
  }

  /** `-a+b-c` scans to six tokens. */
  lemma TokenizeThirdText(a: string, b: string, c: string)
    requires Numeral(a) && Numeral(b) && Numeral(c)
    ensures Tokenize(ThirdText(a, b, c)) == [C('-'), N(a), C('+'), N(b), C('-')] + [N(c)]
  {
    assert ['-'] + [] == ['-'];
    TokenizeCharThen('-', []);
    TokenizeThenNumeral(['-'], a);
    NumeralIsPlain(a);
    TokenizeOperatorNumeral(['-'] + a, '+', b);
    TokenizeOperatorNumeral(['-'] + a + ['+'] + b, '-', c);
    assert [C('-')] + [] + [N(a)] + [C('+'), N(b)] + [C('-'), N(c)]
        == [C('-'), N(a), C('+'), N(b), C('-')] + [N(c)];
  }

  /** `- a +` at the start of an expression: the leading `-` is pushed;
      `a` arrives with the queue empty, so the flag stays raised; `+` moves
      the `-` out. */
  lemma RunMinusPlus(a: string)
    ensures Run(Start, [C('-'), N(a), C('+')]) == Ok(State([N(a), C('-')], [C('+')], true))
  {
    var s1 := State([], [C('-')], true);
    var s2 := State([N(a)], [C('-')], true);
    var s3 := State([N(a), C('-')], [C('+')], true);
    assert Step(Start, C('-')) == Ok(s1) by {
      StepOperatorShort(Start, C('-'));
    }
    assert Step(s1, N(a)) == Ok(s2) by {
      StepNumberFirst(s1, N(a));
    }
    assert Step(s2, C('+')) == Ok(s3) by {
      StepOperatorShort(s2, C('+'));
      assert [N(a)] + [C('-')] == [N(a), C('-')];
    }
    RunThree(Start, C('-'), s1, N(a), s2, C('+'), s3);
  }

  /** The first five tokens of `-a+b-c`: after `- a +`, the second `-`
      moves the `+` out. */
  lemma RunThirdTextStart(a: string, b: string)
    requires Numeral(a)
    ensures Run(Start, [C('-'), N(a), C('+'), N(b), C('-')])
            == Ok(State([N(a), C('-'), N(b), C('+')], [C('-')], true))
  {
    var s3 := State([N(a), C('-')], [C('+')], true);
    var s4 := State([N(a), C('-'), N(b)], [C('+')], false);
    var s5 := State([N(a), C('-'), N(b), C('+')], [C('-')], true);
    RunMinusPlus(a);
    assert Step(s3, N(b)) == Ok(s4) by {
      StepNumberApart(s3, N(b));
      assert [N(a), C('-')] + [N(b)] == [N(a), C('-'), N(b)];
    }
    assert Step(s4, C('-')) == Ok(s5) by {
      StepOperatorShort(s4, C('-'));
      assert [N(a), C('-'), N(b)] + [C('+')] == [N(a), C('-'), N(b), C('+')];
    }
    RunTwo(s3, N(b), s4, C('-'), s5);
    RunThreeThenTwo(Start, C('-'), N(a), C('+'), s3, N(b), C('-'), s5);
  }

  /** A leading `-` is not a sign: it is a binary operator like any other.
      `-a+b-c` converts to `a - b + c -`, a postfix queue in which the first
      `-` has only one operand before it. */
  lemma ThirdTextPostfix(a: string, b: string, c: string)
    requires Numeral(a) && Numeral(b) && Numeral(c)
    ensures Postfix(ThirdText(a, b, c))
            == Ok([N(a), C('-'), N(b), C('+'), N(c), C('-')])
  {
    var text := ThirdText(a, b, c);
    var ts := [C('-'), N(a), C('+'), N(b), C('-')] + [N(c)];
    var q := [N(a), C('-'), N(b), C('+'), N(c)];
    assert Formatted(text) == text by {
      NumeralIsPlain(a); NumeralIsPlain(b); NumeralIsPlain(c);
      FormattedKeepsClean(text);
    }
    TokenizeThirdText(a, b, c);
    assert Run(Start, ts) == Ok(State(q, [C('-')], false)) by {
      var s5 := State([N(a), C('-'), N(b), C('+')], [C('-')], true);
      RunThirdTextStart(a, b);
      StepNumberApart(s5, N(c));
      assert [N(a), C('-'), N(b), C('+')] + [N(c)] == q;
      RunCons(s5, N(c), []);
      assert [N(c)] + [] == [N(c)];
      RunAppend(Start, [C('-'), N(a), C('+'), N(b), C('-')], [N(c)]);
    }
    FlushOne(C('-'), q);
    assert q + [C('-')] == [N(a), C('-'), N(b), C('+'), N(c), C('-')];
    PostfixOf(text, text, ts, State(q, [C('-')], false), q + [C('-')]);
  }

  /** The third expression the demo driver converts: `-1+5-3` converts to
      `1 - 5 + 3 -`. */
  lemma ThirdExample()
    ensures Postfix(ThirdText("1", "5", "3"))
            == Ok([N("1"), C('-'), N("5"), C('+'), N("3"), C('-')])
  {
    ThirdTextPostfix("1", "5", "3");
  }

  // ---------------------------------------------------------------------
  // The fourth expression, `-10 + (8 * 2.5) - (    3 / 1,5)`, without its
  // spaces

  /** The text `-a+(b*c.d)-(e/f,g)`, for numerals `a` to `g`. */
  function FourthText(a: string, b: string, c: string, d: string, e: string, f: string, g: string): string {
    ['-'] + a + ['+'] + ['('] + b + ['*'] + c + ['.'] + d + [')'] + ['-'] + ['('] + e + ['/'] + f + [','] + g + [')']
  }

  /** The same text with its comma made a point, as the normaliser leaves it. */
  function FourthDotted(a: string, b: string, c: string, d: string, e: string, f: string, g: string): string {
    ['-'] + a + ['+'] + ['('] + b + ['*'] + c + ['.'] + d + [')'] + ['-'] + ['('] + e + ['/'] + f + ['.'] + g + [')']
  }

  /** The normaliser turns the decimal comma into a point and changes
      nothing else. */
  lemma FormattedFourthText(a: string, b: string, c: string, d: string, e: string, f: string, g: string)
    requires Numeral(a) && Numeral(b) && Numeral(c) && Numeral(d)
    requires Numeral(e) && Numeral(f) && Numeral(g)
    ensures Formatted(FourthText(a, b, c, d, e, f, g)) == FourthDotted(a, b, c, d, e, f, g)
  {
    NumeralIsPlain(a); NumeralIsPlain(b); NumeralIsPlain(c); NumeralIsPlain(d);
    NumeralIsPlain(e); NumeralIsPlain(f); NumeralIsPlain(g);
    var x := ['-'] + a + ['+'] + ['('] + b + ['*'] + c + ['.'] + d + [')'] + ['-'] + ['('] + e + ['/'] + f;
    FormattedKeepsClean(x);
    FormattedKeepsClean(g);
    FormattedKeepsClean([')']);
    assert Formatted([',']) == ['.'];
    FormattedAppend(x, [',']);
    FormattedAppend(x + [','], g);
    FormattedAppend(x + [','] + g, [')']);
  }

  /** `-a+(b` scans to five tokens. */
  lemma TokenizeFourthStart(a: string, b: string)
    requires Numeral(a) && Numeral(b)
    ensures '\0' !in ['-'] + a + ['+'] + ['('] + b
    ensures Tokenize(['-'] + a + ['+'] + ['('] + b) == [C('-'), N(a), C('+'), C('('), N(b)]
  {
    NumeralIsPlain(a); NumeralIsPlain(b);
    assert ['-'] + [] == ['-'];
    TokenizeCharThen('-', []);
    TokenizeThenNumeral(['-'], a);
    TokenizeThenChar(['-'] + a, '+');
    TokenizeThenChar(['-'] + a + ['+'], '(');
    TokenizeThenNumeral(['-'] + a + ['+'] + ['('], b);
    assert [C('-')] + [] == [C('-')];
    Flat4([C('-')], N(a), C('+'), C('('), N(b));
  }

  /** `*c.d)` after any NUL-free text adds five tokens. */
  lemma TokenizeFourthProduct(p: string, c: string, d: string)
    requires '\0' !in p && Numeral(c) && Numeral(d)
    ensures '\0' !in p + ['*'] + c + ['.'] + d + [')']
    ensures Tokenize(p + ['*'] + c + ['.'] + d + [')'])
            == Tokenize(p) + [C('*'), N(c), C('.'), N(d), C(')')]
  {
    NumeralIsPlain(c); NumeralIsPlain(d);
    TokenizeOperatorNumeral(p, '*', c);
    TokenizeThenChar(p + ['*'] + c, '.');
    TokenizeThenNumeral(p + ['*'] + c + ['.'], d);
    TokenizeThenChar(p + ['*'] + c + ['.'] + d, ')');
    assert Tokenize(p) + [C('*'), N(c)] + [C('.')] + [N(d)] + [C(')')]
        == Tokenize(p) + [C('*'), N(c), C('.'), N(d), C(')')];
  }

  /** `-(e/f` after any NUL-free text adds five tokens. */
  lemma TokenizeFourthQuotient(p: string, e: string, f: string)
    requires '\0' !in p && Numeral(e) && Numeral(f)
    ensures '\0' !in p + ['-'] + ['('] + e + ['/'] + f
    ensures Tokenize(p + ['-'] + ['('] + e + ['/'] + f)
            == Tokenize(p) + [C('-'), C('('), N(e), C('/'), N(f)]
  {
    NumeralIsPlain(e);
    TokenizeThenChar(p, '-');
    TokenizeThenChar(p + ['-'], '(');
    TokenizeThenNumeral(p + ['-'] + ['('], e);
    TokenizeOperatorNumeral(p + ['-'] + ['('] + e, '/', f);
    assert Tokenize(p) + [C('-')] + [C('(')] + [N(e)] + [C('/'), N(f)]
        == Tokenize(p) + [C('-'), C('('), N(e), C('/'), N(f)];
  }

  /** `.g)` after any NUL-free text adds three tokens. */
  lemma TokenizeFourthEnd(p: string, g: string)
    requires '\0' !in p && Numeral(g)
    ensures Tokenize(p + ['.'] + g + [')']) == Tokenize(p) + [C('.'), N(g), C(')')]
  {
    NumeralIsPlain(g);
    TokenizeThenChar(p, '.');
    TokenizeThenNumeral(p + ['.'], g);
    TokenizeThenChar(p + ['.'] + g, ')');
    assert Tokenize(p) + [C('.')] + [N(g)] + [C(')')] == Tokenize(p) + [C('.'), N(g), C(')')];
  }

  /** The normalised fourth text scans to eighteen tokens. */
  lemma TokenizeFourthDotted(a: string, b: string, c: string, d: string, e: string, f: string, g: string)
    requires Numeral(a) && Numeral(b) && Numeral(c) && Numeral(d)
    requires Numeral(e) && Numeral(f) && Numeral(g)
    ensures Tokenize(FourthDotted(a, b, c, d, e, f, g))
            == [C('-'), N(a), C('+'), C('('), N(b)] + [C('*'), N(c), C('.'), N(d), C(')')]
               + [C('-'), C('('), N(e), C('/'), N(f)] + [C('.'), N(g), C(')')]
  {
    var p1 := ['-'] + a + ['+'] + ['('] + b;
    TokenizeFourthStart(a, b);
    TokenizeFourthProduct(p1, c, d);
    var p2 := p1 + ['*'] + c + ['.'] + d + [')'];
    TokenizeFourthQuotient(p2, e, f);
    TokenizeFourthEnd(p2 + ['-'] + ['('] + e + ['/'] + f, g);
  }

  /** `- a + ( b`: the leading `-` is moved out by the `+`; the `(` stays
      above the `+`. */
  lemma RunFourthStart(a: string, b: string)
    ensures Run(Start, [C('-'), N(a), C('+'), C('('), N(b)])
            == Ok(State([N(a), C('-'), N(b)], [C('+'), C('(')], false))
  {
    var s3 := State([N(a), C('-')], [C('+')], true);
    var s4 := State([N(a), C('-')], [C('+'), C('(')], true);
    var s5 := State([N(a), C('-'), N(b)], [C('+'), C('(')], false);
    RunMinusPlus(a);
    assert Step(s3, C('(')) == Ok(s4) by {
      StepLeftParen(s3, C('('));
      assert [C('+')] + [C('(')] == [C('+'), C('(')];
    }
    assert Step(s4, N(b)) == Ok(s5) by {
      StepNumberApart(s4, N(b));
      assert [N(a), C('-')] + [N(b)] == [N(a), C('-'), N(b)];
    }
    RunTwo(s3, C('('), s4, N(b), s5);
    RunThreeThenTwo(Start, C('-'), N(a), C('+'), s3, C('('), N(b), s5);
  }

  /** `* c . d )` inside a group: the point glues `d` onto `c`, and the `)`
      moves the `*` out and drops the `(`. */
  lemma RunFourthProduct(q: seq<Token>, c: string, d: string)
    requires q != []
    ensures Run(State(q, [C('+'), C('(')], false), [C('*'), N(c), C('.'), N(d), C(')')])
            == Ok(State(q + [N(c + ['.'] + d), C('*')], [C('+')], false))
  {
    var s0 := State(q, [C('+'), C('(')], false);
    var s1 := State(q, [C('+'), C('('), C('*')], true);
    var s2 := State(q + [N(c)], [C('+'), C('('), C('*')], false);
    var s3 := State(q + [N(c + ['.'])], [C('+'), C('('), C('*')], false);
    var s4 := State(q + [N(c + ['.'] + d)], [C('+'), C('('), C('*')], false);
    var s5 := State(q + [N(c + ['.'] + d), C('*')], [C('+')], false);
    assert Step(s0, C('*')) == Ok(s1) by {
      StepOperatorPush(s0, C('*'));
      assert [C('+'), C('(')] + [C('*')] == [C('+'), C('('), C('*')];
    }
    assert Step(s1, N(c)) == Ok(s2) by {
      StepNumberApart(s1, N(c));
    }
    assert Step(s2, C('.')) == Ok(s3) by {
      StepDot(s2, C('.'));
      assert DropLast(q + [N(c)]) == q;
    }
    assert Step(s3, N(d)) == Ok(s4) by {
      assert Last(q + [N(c + ['.'])]) == N(c + ['.']);
      assert '.' in c + ['.'];
      StepNumberGlued(s3, N(d));
      assert DropLast(q + [N(c + ['.'])]) == q;
    }
    assert Step(s4, C(')')) == Ok(s5) by {
      assert DropLast(DropLast([C('+'), C('('), C('*')])) == [C('+')];
      assert q + [N(c + ['.'] + d)] + [C('*')] == q + [N(c + ['.'] + d), C('*')];
    }
    RunFive(s0, C('*'), s1, N(c), s2, C('.'), s3, N(d), s4, C(')'), s5);
  }

  /** `- ( e / f` after the group: the `-` moves the `+` out; the `/`
      stays above the new `(`. */
  lemma RunFourthQuotient(q: seq<Token>, e: string, f: string)
    requires q != []
    ensures Run(State(q, [C('+')], false), [C('-'), C('('), N(e), C('/'), N(f)])
            == Ok(State(q + [C('+'), N(e), N(f)], [C('-'), C('('), C('/')], false))
  {
    var s0 := State(q, [C('+')], false);
    var s1 := State(q + [C('+')], [C('-')], true);
    var s2 := State(q + [C('+')], [C('-'), C('(')], true);
    var s3 := State(q + [C('+'), N(e)], [C('-'), C('(')], false);
    var s4 := State(q + [C('+'), N(e)], [C('-'), C('('), C('/')], true);
    var s5 := State(q + [C('+'), N(e), N(f)], [C('-'), C('('), C('/')], false);
    assert Step(s0, C('-')) == Ok(s1) by {
      StepOperatorShort(s0, C('-'));
    }
    assert Step(s1, C('(')) == Ok(s2) by {
      StepLeftParen(s1, C('('));
      assert [C('-')] + [C('(')] == [C('-'), C('(')];
    }
    assert Step(s2, N(e)) == Ok(s3) by {
      StepNumberApart(s2, N(e));
      assert q + [C('+')] + [N(e)] == q + [C('+'), N(e)];
    }
    assert Step(s3, C('/')) == Ok(s4) by {
      StepOperatorPush(s3, C('/'));
      assert [C('-'), C('(')] + [C('/')] == [C('-'), C('('), C('/')];
    }
    assert Step(s4, N(f)) == Ok(s5) by {
      StepNumberApart(s4, N(f));
      assert q + [C('+'), N(e)] + [N(f)] == q + [C('+'), N(e), N(f)];
    }
    RunFive(s0, C('-'), s1, C('('), s2, N(e), s3, C('/'), s4, N(f), s5);
  }

  /** `. g )` closing the second group: `g` is glued onto `f`, the `)`
      moves the `/` out and drops the `(`. */
  lemma RunFourthEnd(q: seq<Token>, f: string, g: string)
    ensures Run(State(q + [N(f)], [C('-'), C('('), C('/')], false), [C('.'), N(g), C(')')])
            == Ok(State(q + [N(f + ['.'] + g), C('/')], [C('-')], false))
  {
    var s0 := State(q + [N(f)], [C('-'), C('('), C('/')], false);
    var s1 := State(q + [N(f + ['.'])], [C('-'), C('('), C('/')], false);
    var s2 := State(q + [N(f + ['.'] + g)], [C('-'), C('('), C('/')], false);
    var s3 := State(q + [N(f + ['.'] + g), C('/')], [C('-')], false);
    assert Step(s0, C('.')) == Ok(s1) by {
      StepDot(s0, C('.'));
      assert DropLast(q + [N(f)]) == q;
    }
    assert Step(s1, N(g)) == Ok(s2) by {
      assert Last(q + [N(f + ['.'])]) == N(f + ['.']);
      assert '.' in f + ['.'];
      StepNumberGlued(s1, N(g));
      assert DropLast(q + [N(f + ['.'])]) == q;
    }
    assert Step(s2, C(')')) == Ok(s3) by {
      assert DropLast(DropLast([C('-'), C('('), C('/')])) == [C('-')];
      assert q + [N(f + ['.'] + g)] + [C('/')] == q + [N(f + ['.'] + g), C('/')];
    }
    RunCons(s2, C(')'), []);
    RunCons(s1, N(g), [C(')')]);
    RunCons(s0, C('.'), [N(g), C(')')]);
    assert [C(')')] + [] == [C(')')];
    assert [N(g)] + [C(')')] == [N(g), C(')')];
    assert [C('.')] + [N(g), C(')')] == [C('.'), N(g), C(')')];
  }

  /** The run over the eighteen tokens of the normalised fourth text. */
  lemma RunFourthDotted(a: string, b: string, c: string, d: string, e: string, f: string, g: string)
    ensures Run(Start, [C('-'), N(a), C('+'), C('('), N(b)] + [C('*'), N(c), C('.'), N(d), C(')')]
                       + [C('-'), C('('), N(e), C('/'), N(f)] + [C('.'), N(g), C(')')])
            == Ok(State([N(a), C('-'), N(b)] + [N(c + ['.'] + d), C('*')] + [C('+'), N(e)]
                        + [N(f + ['.'] + g), C('/')], [C('-')], false))
  {
    var c1 := [C('-'), N(a), C('+'), C('('), N(b)];
    var c2 := [C('*'), N(c), C('.'), N(d), C(')')];
    var c3 := [C('-'), C('('), N(e), C('/'), N(f)];
    var c4 := [C('.'), N(g), C(')')];
    var q1 := [N(a), C('-'), N(b)];
    var q2 := q1 + [N(c + ['.'] + d), C('*')];
    var q3 := q2 + [C('+'), N(e)];
    assert Run(Start, c1 + c2) == Ok(State(q2, [C('+')], false)) by {
      RunFourthStart(a, b);
      RunFourthProduct(q1, c, d);
      RunAppend(Start, c1, c2);
    }
    assert Run(Start, c1 + c2 + c3) == Ok(State(q3 + [N(f)], [C('-'), C('('), C('/')], false)) by {
      RunFourthQuotient(q2, e, f);
      assert q2 + [C('+'), N(e), N(f)] == q3 + [N(f)];
      RunAppend(Start, c1 + c2, c3);
    }
    RunFourthEnd(q3, f, g);
    RunAppend(Start, c1 + c2 + c3, c4);
  }

  /** `-a+(b*c,d)-(e/f,g)`: each group holds one operator, each decimal
      comma becomes a point, and the conversion gives
      `a - b c.d * + e f.g / -`. */
  lemma FourthTextPostfix(a: string, b: string, c: string, d: string, e: string, f: string, g: string)
    requires Numeral(a) && Numeral(b) && Numeral(c) && Numeral(d)
    requires Numeral(e) && Numeral(f) && Numeral(g)
    ensures Postfix(FourthText(a, b, c, d, e, f, g))
            == Ok([N(a), C('-'), N(b), N(c + ['.'] + d), C('*'), C('+'), N(e), N(f + ['.'] + g), C('/'), C('-')])
  {
    var ts := [C('-'), N(a), C('+'), C('('), N(b)] + [C('*'), N(c), C('.'), N(d), C(')')]
              + [C('-'), C('('), N(e), C('/'), N(f)] + [C('.'), N(g), C(')')];
    var q := [N(a), C('-'), N(b)] + [N(c + ['.'] + d), C('*')] + [C('+'), N(e)] + [N(f + ['.'] + g), C('/')];
    var out := [N(a), C('-'), N(b), N(c + ['.'] + d), C('*'), C('+'), N(e), N(f + ['.'] + g), C('/'), C('-')];
    FormattedFourthText(a, b, c, d, e, f, g);
    TokenizeFourthDotted(a, b, c, d, e, f, g);
    RunFourthDotted(a, b, c, d, e, f, g);
    FlushFourth(N(a), C('-'), N(b), N(c + ['.'] + d), C('*'), C('+'), N(e), N(f + ['.'] + g), C('/'), C('-'));
    PostfixOf(FourthText(a, b, c, d, e, f, g), FourthDotted(a, b, c, d, e, f, g), ts, State(q, [C('-')], false), out);
  }

  /** The flush at the end of the fourth expression. */
  lemma FlushFourth(t0: Token, t1: Token, t2: Token, t3: Token, t4: Token, t5: Token, t6: Token, t7: Token,
                    t8: Token, o: Token)
    requires o.kind != LeftParen
    ensures Flush([o], [t0, t1, t2] + [t3, t4] + [t5, t6] + [t7, t8])
            == Ok([t0, t1, t2, t3, t4, t5, t6, t7, t8, o])
  {
    FlushOne(o, [t0, t1, t2] + [t3, t4] + [t5, t6] + [t7, t8]);
    assert [t0, t1, t2] + [t3, t4] + [t5, t6] + [t7, t8] + [o] == [t0, t1, t2, t3, t4, t5, t6, t7, t8, o];
  }

  /** The fourth expression the demo driver converts: `-10+(8*2.5)-(3/1,5)`
      converts to `10 - 8 2.5 * + 3 1.5 / -`. */
  lemma FourthExample()
    ensures Postfix(FourthText("10", "8", "2", "5", "3", "1", "5"))
            == Ok([N("10"), C('-'), N("8"), N("2.5"), C('*'), C('+'), N("3"), N("1.5"), C('/'), C('-')])
  {
    FourthTextPostfix("10", "8", "2", "5", "3", "1", "5");
    assert "2" + ['.'] + "5" == "2.5";
    assert "1" + ['.'] + "5" == "1.5";
  }

  // ---------------------------------------------------------------------
  // The fifth expression, `1+(2*   (2.5+2,5+  (3-   2)))-(3/1,5)`, without
  // its spaces

  /** Five one-token appends are one five-token append. */
  lemma Flat5(x: seq<Token>, t1: Token, t2: Token, t3: Token, t4: Token, t5: Token)
    ensures x + [t1] + [t2] + [t3] + [t4] + [t5] == x + [t1, t2, t3, t4, t5]
  {
  }

  /** Four one-token appends are one four-token append. */
  lemma Flat4(x: seq<Token>, t1: Token, t2: Token, t3: Token, t4: Token)
    ensures x + [t1] + [t2] + [t3] + [t4] == x + [t1, t2, t3, t4]
  {
  }

  /** Normalising a text extended by a piece with no space and no comma
      extends the normalised text by the same piece. */
  lemma FormattedExtend(t: string, u: string, w: string)
    requires Formatted(t) == u && ' ' !in w && ',' !in w
    ensures Formatted(t + w) == u + w
  {
    FormattedAppend(t, w);
    FormattedKeepsClean(w);
  }

  /** Normalising a text extended by a comma extends the normalised text
      by a point. */
  lemma FormattedExtendComma(t: string, u: string)
    requires Formatted(t) == u
    ensures Formatted(t + [',']) == u + ['.']
  {
    FormattedAppend(t, [',']);
    assert Formatted([',']) == ['.'];
  }

  /** The text `a+(b*(c.d+e,f+(g-h)))-(i/j,k)`, for numerals `a` to `k`. */
  function FifthText(a: string, b: string, c: string, d: string, e: string, f: string,
                     g: string, h: string, i: string, j: string, k: string): string {
    a + ['+'] + ['('] + b + ['*'] + ['('] + c + ['.'] + d + ['+'] + e + [','] + f + ['+'] + ['(']
      + g + ['-'] + h + [')'] + [')'] + [')'] + ['-'] + ['('] + i + ['/'] + j + [','] + k + [')']
  }

  /** The same text with its commas made points. */
  function FifthDotted(a: string, b: string, c: string, d: string, e: string, f: string,
                       g: string, h: string, i: string, j: string, k: string): string {
    a + ['+'] + ['('] + b + ['*'] + ['('] + c + ['.'] + d + ['+'] + e + ['.'] + f + ['+'] + ['(']
      + g + ['-'] + h + [')'] + [')'] + [')'] + ['-'] + ['('] + i + ['/'] + j + ['.'] + k + [')']
  }

  lemma FormattedFifthText(a: string, b: string, c: string, d: string, e: string, f: string,
                           g: string, h: string, i: string, j: string, k: string)
    requires Numeral(a) && Numeral(b) && Numeral(c) && Numeral(d) && Numeral(e) && Numeral(f)
    requires Numeral(g) && Numeral(h) && Numeral(i) && Numeral(j) && Numeral(k)
    ensures Formatted(FifthText(a, b, c, d, e, f, g, h, i, j, k)) == FifthDotted(a, b, c, d, e, f, g, h, i, j, k)
  {
    var x := a + ['+'] + ['('] + b + ['*'] + ['('] + c + ['.'] + d + ['+'] + e;
    assert Formatted(x) == x by {
      NumeralIsPlain(a); NumeralIsPlain(b); NumeralIsPlain(c); NumeralIsPlain(d); NumeralIsPlain(e);
      FormattedKeepsClean(x);
    }
    FormattedExtendComma(x, x);
    var t1 := x + [','] + f + ['+'] + ['('] + g + ['-'];
    var u1 := x + ['.'] + f + ['+'] + ['('] + g + ['-'];
    FormattedFifthMiddle(x + [','], x + ['.'], f, g);
    var t2 := t1 + h + [')'] + [')'] + [')'] + ['-'];
    var u2 := u1 + h + [')'] + [')'] + [')'] + ['-'];
    FormattedFifthClose(t1, u1, h);
    var t3 := t2 + ['('] + i + ['/'] + j;
    var u3 := u2 + ['('] + i + ['/'] + j;
    FormattedFifthLast(t2, u2, i, j);
    FormattedExtendComma(t3, u3);
    assert Formatted(t3 + [','] + k) == u3 + ['.'] + k by {
      NumeralIsPlain(k);
      FormattedExtend(t3 + [','], u3 + ['.'], k);
    }
    FormattedExtend(t3 + [','] + k, u3 + ['.'] + k, [')']);
  }

  lemma FormattedFifthMiddle(t: string, u: string, f: string, g: string)
    requires Formatted(t) == u && Numeral(f) && Numeral(g)
    ensures Formatted(t + f + ['+'] + ['('] + g + ['-']) == u + f + ['+'] + ['('] + g + ['-']
  {
    NumeralIsPlain(f); NumeralIsPlain(g);
    FormattedExtend(t, u, f);
    FormattedExtend(t + f, u + f, ['+']);
    FormattedExtend(t + f + ['+'], u + f + ['+'], ['(']);
    FormattedExtend(t + f + ['+'] + ['('], u + f + ['+'] + ['('], g);
    FormattedExtend(t + f + ['+'] + ['('] + g, u + f + ['+'] + ['('] + g, ['-']);
  }

  lemma FormattedFifthClose(t: string, u: string, h: string)
    requires Formatted(t) == u && Numeral(h)
    ensures Formatted(t + h + [')'] + [')'] + [')'] + ['-']) == u + h + [')'] + [')'] + [')'] + ['-']
  {
    NumeralIsPlain(h);
    FormattedExtend(t, u, h);
    FormattedExtend(t + h, u + h, [')']);
    FormattedExtend(t + h + [')'], u + h + [')'], [')']);
    FormattedExtend(t + h + [')'] + [')'], u + h + [')'] + [')'], [')']);
    FormattedExtend(t + h + [')'] + [')'] + [')'], u + h + [')'] + [')'] + [')'], ['-']);
  }

  lemma FormattedFifthLast(t: string, u: string, i: string, j: string)
    requires Formatted(t) == u && Numeral(i) && Numeral(j)
    ensures Formatted(t + ['('] + i + ['/'] + j) == u + ['('] + i + ['/'] + j
  {
    NumeralIsPlain(i); NumeralIsPlain(j);
    FormattedExtend(t, u, ['(']);
    FormattedExtend(t + ['('], u + ['('], i);
    FormattedExtend(t + ['('] + i, u + ['('] + i, ['/']);
    FormattedExtend(t + ['('] + i + ['/'], u + ['('] + i + ['/'], j);
  }

  /** `a+(b*` scans to five tokens. */
  lemma TokenizeFifthStart(a: string, b: string)
    requires Numeral(a) && Numeral(b)
    ensures '\0' !in a + ['+'] + ['('] + b + ['*']
    ensures Tokenize(a + ['+'] + ['('] + b + ['*']) == [N(a), C('+'), C('('), N(b), C('*')]
  {
    NumeralIsPlain(a); NumeralIsPlain(b);
    TokenizeNumeral(a);
    TokenizeThenChar(a, '+');
    TokenizeThenChar(a + ['+'], '(');
    TokenizeThenNumeral(a + ['+'] + ['('], b);
    TokenizeThenChar(a + ['+'] + ['('] + b, '*');
    assert [N(a)] + [C('+')] + [C('(')] + [N(b)] + [C('*')] == [N(a), C('+'), C('('), N(b), C('*')];
  }

  /** `(c.d+` after any NUL-free text adds five tokens. */
  lemma TokenizeFifthGroup(p: string, c: string, d: string)
    requires '\0' !in p && Numeral(c) && Numeral(d)
    ensures '\0' !in p + ['('] + c + ['.'] + d + ['+']
    ensures Tokenize(p + ['('] + c + ['.'] + d + ['+'])
            == Tokenize(p) + [C('('), N(c), C('.'), N(d), C('+')]
  {
    NumeralIsPlain(c); NumeralIsPlain(d);
    TokenizeThenChar(p, '(');
    TokenizeThenNumeral(p + ['('], c);
    TokenizeThenChar(p + ['('] + c, '.');
    TokenizeThenNumeral(p + ['('] + c + ['.'], d);
    TokenizeThenChar(p + ['('] + c + ['.'] + d, '+');
    assert Tokenize(p) + [C('(')] + [N(c)] + [C('.')] + [N(d)] + [C('+')]
        == Tokenize(p) + [C('('), N(c), C('.'), N(d), C('+')];
  }

  /** `e.f+(` after a NUL-free text ending in a non-digit adds five tokens. */
  lemma TokenizeFifthSum(p: string, e: string, f: string)
    requires '\0' !in p && p != [] && !IsDigit(p[|p| - 1]) && Numeral(e) && Numeral(f)
    ensures '\0' !in p + e + ['.'] + f + ['+'] + ['(']
    ensures Tokenize(p + e + ['.'] + f + ['+'] + ['('])
            == Tokenize(p) + [N(e), C('.'), N(f), C('+'), C('(')]
  {
    NumeralIsPlain(e); NumeralIsPlain(f);
    TokenizeThenNumeral(p, e);
    TokenizeThenChar(p + e, '.');
    TokenizeThenNumeral(p + e + ['.'], f);
    TokenizeThenChar(p + e + ['.'] + f, '+');
    TokenizeThenChar(p + e + ['.'] + f + ['+'], '(');
    Flat5(Tokenize(p), N(e), C('.'), N(f), C('+'), C('('));
  }

  /** `g-h))` after a NUL-free text ending in a non-digit adds five tokens. */
  lemma TokenizeFifthDifference(p: string, g: string, h: string)
    requires '\0' !in p && p != [] && !IsDigit(p[|p| - 1]) && Numeral(g) && Numeral(h)
    ensures '\0' !in p + g + ['-'] + h + [')'] + [')']
    ensures Tokenize(p + g + ['-'] + h + [')'] + [')'])
            == Tokenize(p) + [N(g), C('-'), N(h), C(')'), C(')')]
  {
    NumeralIsPlain(g); NumeralIsPlain(h);
    TokenizeThenNumeral(p, g);
    TokenizeThenChar(p + g, '-');
    TokenizeThenNumeral(p + g + ['-'], h);
    TokenizeThenChar(p + g + ['-'] + h, ')');
    TokenizeThenChar(p + g + ['-'] + h + [')'], ')');
    Flat5(Tokenize(p), N(g), C('-'), N(h), C(')'), C(')'));
  }

  /** `)-(i/` after any NUL-free text adds five tokens. */
  lemma TokenizeFifthQuotient(p: string, i: string)
    requires '\0' !in p && Numeral(i)
    ensures '\0' !in p + [')'] + ['-'] + ['('] + i + ['/']
    ensures Tokenize(p + [')'] + ['-'] + ['('] + i + ['/'])
            == Tokenize(p) + [C(')'), C('-'), C('('), N(i), C('/')]
  {
    NumeralIsPlain(i);
    TokenizeThenChar(p, ')');
    TokenizeThenChar(p + [')'], '-');
    TokenizeThenChar(p + [')'] + ['-'], '(');
    TokenizeThenNumeral(p + [')'] + ['-'] + ['('], i);
    TokenizeThenChar(p + [')'] + ['-'] + ['('] + i, '/');
    assert Tokenize(p) + [C(')')] + [C('-')] + [C('(')] + [N(i)] + [C('/')]
        == Tokenize(p) + [C(')'), C('-'), C('('), N(i), C('/')];
  }

  /** `j.k)` after a NUL-free text ending in a non-digit adds four tokens. */
  lemma TokenizeFifthEnd(p: string, j: string, k: string)
    requires '\0' !in p && p != [] && !IsDigit(p[|p| - 1]) && Numeral(j) && Numeral(k)
    ensures Tokenize(p + j + ['.'] + k + [')']) == Tokenize(p) + [N(j), C('.'), N(k), C(')')]
  {
    NumeralIsPlain(j); NumeralIsPlain(k);
    TokenizeThenNumeral(p, j);
    TokenizeThenChar(p + j, '.');
    TokenizeThenNumeral(p + j + ['.'], k);
    TokenizeThenChar(p + j + ['.'] + k, ')');
    Flat4(Tokenize(p), N(j), C('.'), N(k), C(')'));
  }

  /** The normalised fifth text scans to twenty-nine tokens. */
  lemma TokenizeFifthDotted(a: string, b: string, c: string, d: string, e: string, f: string,
                            g: string, h: string, i: string, j: string, k: string)
    requires Numeral(a) && Numeral(b) && Numeral(c) && Numeral(d) && Numeral(e) && Numeral(f)
    requires Numeral(g) && Numeral(h) && Numeral(i) && Numeral(j) && Numeral(k)
    ensures Tokenize(FifthDotted(a, b, c, d, e, f, g, h, i, j, k))
            == [N(a), C('+'), C('('), N(b), C('*')] + [C('('), N(c), C('.'), N(d), C('+')]
               + [N(e), C('.'), N(f), C('+'), C('(')] + [N(g), C('-'), N(h), C(')'), C(')')]
               + [C(')'), C('-'), C('('), N(i), C('/')] + [N(j), C('.'), N(k), C(')')]
  {
    var p1 := a + ['+'] + ['('] + b + ['*'];
    TokenizeFifthStart(a, b);
    var p2 := p1 + ['('] + c + ['.'] + d + ['+'];
    TokenizeFifthGroup(p1, c, d);
    var p3 := p2 + e + ['.'] + f + ['+'] + ['('];
    TokenizeFifthSum(p2, e, f);
    var p4 := p3 + g + ['-'] + h + [')'] + [')'];
    TokenizeFifthDifference(p3, g, h);
    var p5 := p4 + [')'] + ['-'] + ['('] + i + ['/'];
    TokenizeFifthQuotient(p4, i);
    TokenizeFifthEnd(p5, j, k);
  }

  /** `a + ( b *`. */
  lemma RunFifthStart(a: string, b: string)
    ensures Run(Start, [N(a), C('+'), C('('), N(b), C('*')])
            == Ok(State([N(a), N(b)], [C('+'), C('('), C('*')], true))
  {
    var s0 := Start;
    var s1 := State([N(a)], [], false);
    var s2 := State([N(a)], [C('+')], true);
    var s3 := State([N(a)], [C('+'), C('(')], true);
    var s4 := State([N(a), N(b)], [C('+'), C('(')], false);
    var s5 := State([N(a), N(b)], [C('+'), C('('), C('*')], true);
    assert Step(s0, N(a)) == Ok(s1) by {
      StepNumberFirst(s0, N(a));
    }
    assert Step(s1, C('+')) == Ok(s2) by {
      StepOperatorShort(s1, C('+'));
    }
    assert Step(s2, C('(')) == Ok(s3) by {
      StepLeftParen(s2, C('('));
      assert [C('+')] + [C('(')] == [C('+'), C('(')];
    }
    assert Step(s3, N(b)) == Ok(s4) by {
      StepNumberApart(s3, N(b));
      assert [N(a)] + [N(b)] == [N(a), N(b)];
    }
    assert Step(s4, C('*')) == Ok(s5) by {
      StepOperatorPush(s4, C('*'));
      assert [C('+'), C('(')] + [C('*')] == [C('+'), C('('), C('*')];
    }
    RunFive(s0, N(a), s1, C('+'), s2, C('('), s3, N(b), s4, C('*'), s5);
  }

  /** `( c . d +` opens the inner group: `d` is glued onto `c`, and the `+`
      stays above the `(`. */
  lemma RunFifthGroup(q: seq<Token>, c: string, d: string)
    requires q != []
    ensures Run(State(q, [C('+'), C('('), C('*')], true), [C('('), N(c), C('.'), N(d), C('+')])
            == Ok(State(q + [N(c + ['.'] + d)], [C('+'), C('('), C('*'), C('('), C('+')], true))
  {
    var st := [C('+'), C('('), C('*'), C('(')];
    var s0 := State(q, [C('+'), C('('), C('*')], true);
    var s1 := State(q, st, true);
    var s2 := State(q + [N(c)], st, false);
    var s3 := State(q + [N(c + ['.'])], st, false);
    var s4 := State(q + [N(c + ['.'] + d)], st, false);
    var s5 := State(q + [N(c + ['.'] + d)], st + [C('+')], true);
    assert Step(s0, C('(')) == Ok(s1) by {
      StepLeftParen(s0, C('('));
      assert [C('+'), C('('), C('*')] + [C('(')] == st;
    }
    assert Step(s1, N(c)) == Ok(s2) by {
      StepNumberApart(s1, N(c));
    }
    assert Step(s2, C('.')) == Ok(s3) by {
      StepDot(s2, C('.'));
      assert DropLast(q + [N(c)]) == q;
    }
    assert Step(s3, N(d)) == Ok(s4) by {
      assert Last(q + [N(c + ['.'])]) == N(c + ['.']);
      assert '.' in c + ['.'];
      StepNumberGlued(s3, N(d));
      assert DropLast(q + [N(c + ['.'])]) == q;
    }
    assert Step(s4, C('+')) == Ok(s5) by {
      StepOperatorPush(s4, C('+'));
    }
    RunFive(s0, C('('), s1, N(c), s2, C('.'), s3, N(d), s4, C('+'), s5);
    assert st + [C('+')] == [C('+'), C('('), C('*'), C('('), C('+')];
  }

  /** `e . f + (`: `f` is glued onto `e`; the second `+` moves the first
      one out and stops at the `(` under it. */
  lemma RunFifthSum(q: seq<Token>, e: string, f: string)
    requires q != []
    ensures Run(State(q, [C('+'), C('('), C('*'), C('('), C('+')], true), [N(e), C('.'), N(f), C('+'), C('(')])
            == Ok(State(q + [N(e + ['.'] + f), C('+')], [C('+'), C('('), C('*'), C('('), C('+'), C('(')], true))
  {
    var st := [C('+'), C('('), C('*'), C('('), C('+')];
    var s0 := State(q, st, true);
    var s1 := State(q + [N(e)], st, false);
    var s2 := State(q + [N(e + ['.'])], st, false);
    var s3 := State(q + [N(e + ['.'] + f)], st, false);
    var s4 := State(q + [N(e + ['.'] + f), C('+')], st, true);
    var s5 := State(q + [N(e + ['.'] + f), C('+')], st + [C('(')], true);
    assert Step(s0, N(e)) == Ok(s1) by {
      StepNumberApart(s0, N(e));
    }
    assert Step(s1, C('.')) == Ok(s2) by {
      StepDot(s1, C('.'));
      assert DropLast(q + [N(e)]) == q;
    }
    assert Step(s2, N(f)) == Ok(s3) by {
      assert Last(q + [N(e + ['.'])]) == N(e + ['.']);
      assert '.' in e + ['.'];
      StepNumberGlued(s2, N(f));
      assert DropLast(q + [N(e + ['.'])]) == q;
    }
    assert Step(s3, C('+')) == Ok(s4) by {
      StepOperatorPopOne(s3, C('+'));
      assert q + [N(e + ['.'] + f)] + [C('+')] == q + [N(e + ['.'] + f), C('+')];
      assert DropLast(st) + [C('+')] == st;
    }
    assert Step(s4, C('(')) == Ok(s5) by {
      StepLeftParen(s4, C('('));
    }
    RunFive(s0, N(e), s1, C('.'), s2, N(f), s3, C('+'), s4, C('('), s5);
    assert st + [C('(')] == [C('+'), C('('), C('*'), C('('), C('+'), C('(')];
  }

  /** `g - h ) )`: the first `)` moves the `-` out and drops the innermost
      `(`; the second moves the `+` out and drops the next `(`. */
  lemma RunFifthDifference(q: seq<Token>, g: string, h: string)
    requires q != []
    ensures Run(State(q, [C('+'), C('('), C('*'), C('('), C('+'), C('(')], true), [N(g), C('-'), N(h), C(')'), C(')')])
            == Ok(State(q + [N(g), N(h), C('-'), C('+')], [C('+'), C('('), C('*')], false))
  {
    var st := [C('+'), C('('), C('*'), C('('), C('+'), C('(')];
    var s0 := State(q, st, true);
    var s1 := State(q + [N(g)], st, false);
    var s2 := State(q + [N(g)], st + [C('-')], true);
    var s3 := State(q + [N(g), N(h)], st + [C('-')], false);
    var s4 := State(q + [N(g), N(h), C('-')], [C('+'), C('('), C('*'), C('('), C('+')], false);
    var s5 := State(q + [N(g), N(h), C('-'), C('+')], [C('+'), C('('), C('*')], false);
    assert Step(s0, N(g)) == Ok(s1) by {
      StepNumberApart(s0, N(g));
    }
    assert Step(s1, C('-')) == Ok(s2) by {
      StepOperatorPush(s1, C('-'));
    }
    assert Step(s2, N(h)) == Ok(s3) by {
      StepNumberApart(s2, N(h));
      assert q + [N(g)] + [N(h)] == q + [N(g), N(h)];
    }
    assert Step(s3, C(')')) == Ok(s4) by {
      assert Last(st + [C('-')]) == C('-');
      assert DropLast(DropLast(st + [C('-')])) == [C('+'), C('('), C('*'), C('('), C('+')];
      assert q + [N(g), N(h)] + [C('-')] == q + [N(g), N(h), C('-')];
    }
    assert Step(s4, C(')')) == Ok(s5) by {
      assert DropLast(DropLast([C('+'), C('('), C('*'), C('('), C('+')])) == [C('+'), C('('), C('*')];
      assert q + [N(g), N(h), C('-')] + [C('+')] == q + [N(g), N(h), C('-'), C('+')];
    }
    RunFive(s0, N(g), s1, C('-'), s2, N(h), s3, C(')'), s4, C(')'), s5);
  }

  /** `) - ( i /`: the third `)` moves the `*` out and drops the outer `(`;
      the `-` moves the `+` out. */
  lemma RunFifthQuotient(q: seq<Token>, i: string)
    requires q != []
    ensures Run(State(q, [C('+'), C('('), C('*')], false), [C(')'), C('-'), C('('), N(i), C('/')])
            == Ok(State(q + [C('*'), C('+'), N(i)], [C('-'), C('('), C('/')], true))
  {
    var s0 := State(q, [C('+'), C('('), C('*')], false);
    var s1 := State(q + [C('*')], [C('+')], false);
    var s2 := State(q + [C('*'), C('+')], [C('-')], true);
    var s3 := State(q + [C('*'), C('+')], [C('-'), C('(')], true);
    var s4 := State(q + [C('*'), C('+'), N(i)], [C('-'), C('(')], false);
    var s5 := State(q + [C('*'), C('+'), N(i)], [C('-'), C('('), C('/')], true);
    assert Step(s0, C(')')) == Ok(s1) by {
      assert DropLast(DropLast([C('+'), C('('), C('*')])) == [C('+')];
    }
    assert Step(s1, C('-')) == Ok(s2) by {
      StepOperatorShort(s1, C('-'));
      assert q + [C('*')] + [C('+')] == q + [C('*'), C('+')];
    }
    assert Step(s2, C('(')) == Ok(s3) by {
      StepLeftParen(s2, C('('));
      assert [C('-')] + [C('(')] == [C('-'), C('(')];
    }
    assert Step(s3, N(i)) == Ok(s4) by {
      StepNumberApart(s3, N(i));
      assert q + [C('*'), C('+')] + [N(i)] == q + [C('*'), C('+'), N(i)];
    }
    assert Step(s4, C('/')) == Ok(s5) by {
      StepOperatorPush(s4, C('/'));
      assert [C('-'), C('(')] + [C('/')] == [C('-'), C('('), C('/')];
    }
    RunFive(s0, C(')'), s1, C('-'), s2, C('('), s3, N(i), s4, C('/'), s5);
  }

  /** `j . k )` closes the last group. */
  lemma RunFifthEnd(q: seq<Token>, j: string, k: string)
    requires q != []
    ensures Run(State(q, [C('-'), C('('), C('/')], true), [N(j), C('.'), N(k), C(')')])
            == Ok(State(q + [N(j + ['.'] + k), C('/')], [C('-')], false))
  {
    var s0 := State(q, [C('-'), C('('), C('/')], true);
    var s1 := State(q + [N(j)], [C('-'), C('('), C('/')], false);
    assert Step(s0, N(j)) == Ok(s1) by {
      StepNumberApart(s0, N(j));
    }
    RunFourthEnd(q, j, k);
    RunCons(s0, N(j), [C('.'), N(k), C(')')]);
    assert [N(j)] + [C('.'), N(k), C(')')] == [N(j), C('.'), N(k), C(')')];
  }

  /** The run over the twenty-nine tokens of the normalised fifth text. */
  lemma RunFifthDotted(a: string, b: string, c: string, d: string, e: string, f: string,
                       g: string, h: string, i: string, j: string, k: string)
    ensures Run(Start, [N(a), C('+'), C('('), N(b), C('*')] + [C('('), N(c), C('.'), N(d), C('+')]
                       + [N(e), C('.'), N(f), C('+'), C('(')] + [N(g), C('-'), N(h), C(')'), C(')')]
                       + [C(')'), C('-'), C('('), N(i), C('/')] + [N(j), C('.'), N(k), C(')')])
            == Ok(State([N(a), N(b)] + [N(c + ['.'] + d)] + [N(e + ['.'] + f), C('+')]
                        + [N(g), N(h), C('-'), C('+')] + [C('*'), C('+'), N(i)]
                        + [N(j + ['.'] + k), C('/')], [C('-')], false))
  {
    var c1 := [N(a), C('+'), C('('), N(b), C('*')];
    var c2 := [C('('), N(c), C('.'), N(d), C('+')];
    var c3 := [N(e), C('.'), N(f), C('+'), C('(')];
    var c4 := [N(g), C('-'), N(h), C(')'), C(')')];
    var c5 := [C(')'), C('-'), C('('), N(i), C('/')];
    var c6 := [N(j), C('.'), N(k), C(')')];
    var q1 := [N(a), N(b)];
    var q2 := q1 + [N(c + ['.'] + d)];
    var q3 := q2 + [N(e + ['.'] + f), C('+')];
    var q4 := q3 + [N(g), N(h), C('-'), C('+')];
    var q5 := q4 + [C('*'), C('+'), N(i)];
    assert Run(Start, c1 + c2) == Ok(State(q2, [C('+'), C('('), C('*'), C('('), C('+')], true)) by {
      RunFifthStart(a, b);
      RunFifthGroup(q1, c, d);
      RunAppend(Start, c1, c2);
    }
    assert Run(Start, c1 + c2 + c3) == Ok(State(q3, [C('+'), C('('), C('*'), C('('), C('+'), C('(')], true)) by {
      RunFifthSum(q2, e, f);
      RunAppend(Start, c1 + c2, c3);
    }
    assert Run(Start, c1 + c2 + c3 + c4) == Ok(State(q4, [C('+'), C('('), C('*')], false)) by {
      RunFifthDifference(q3, g, h);
      RunAppend(Start, c1 + c2 + c3, c4);
    }
    assert Run(Start, c1 + c2 + c3 + c4 + c5) == Ok(State(q5, [C('-'), C('('), C('/')], true)) by {
      RunFifthQuotient(q4, i);
      RunAppend(Start, c1 + c2 + c3 + c4, c5);
    }
    RunFifthEnd(q5, j, k);
    RunAppend(Start, c1 + c2 + c3 + c4 + c5, c6);
  }

  /** `a+(b*(c.d+e,f+(g-h)))-(i/j,k)`: three nested groups, each closed
      when it holds a single operator on top of its `(`, so the conversion
      gives `a b c.d e.f + g h - + * + i j.k / -`. */
  lemma FifthTextPostfix(a: string, b: string, c: string, d: string, e: string, f: string,
                         g: string, h: string, i: string, j: string, k: string)
    requires Numeral(a) && Numeral(b) && Numeral(c) && Numeral(d) && Numeral(e) && Numeral(f)
    requires Numeral(g) && Numeral(h) && Numeral(i) && Numeral(j) && Numeral(k)
    ensures Postfix(FifthText(a, b, c, d, e, f, g, h, i, j, k))
            == Ok([N(a), N(b), N(c + ['.'] + d), N(e + ['.'] + f), C('+'), N(g), N(h), C('-'), C('+'),
                   C('*'), C('+'), N(i), N(j + ['.'] + k), C('/'), C('-')])
  {
    var ts := [N(a), C('+'), C('('), N(b), C('*')] + [C('('), N(c), C('.'), N(d), C('+')]
              + [N(e), C('.'), N(f), C('+'), C('(')] + [N(g), C('-'), N(h), C(')'), C(')')]
              + [C(')'), C('-'), C('('), N(i), C('/')] + [N(j), C('.'), N(k), C(')')];
    var q := [N(a), N(b)] + [N(c + ['.'] + d)] + [N(e + ['.'] + f), C('+')]
             + [N(g), N(h), C('-'), C('+')] + [C('*'), C('+'), N(i)] + [N(j + ['.'] + k), C('/')];
    var out := [N(a), N(b), N(c + ['.'] + d), N(e + ['.'] + f), C('+'), N(g), N(h), C('-'), C('+'),
                C('*'), C('+'), N(i), N(j + ['.'] + k), C('/'), C('-')];
    FormattedFifthText(a, b, c, d, e, f, g, h, i, j, k);
    TokenizeFifthDotted(a, b, c, d, e, f, g, h, i, j, k);
    RunFifthDotted(a, b, c, d, e, f, g, h, i, j, k);
    FlushFifth(N(a), N(b), N(c + ['.'] + d), N(e + ['.'] + f), C('+'), N(g), N(h), C('-'), C('+'),
               C('*'), C('+'), N(i), N(j + ['.'] + k), C('/'), C('-'));
    PostfixOf(FifthText(a, b, c, d, e, f, g, h, i, j, k), FifthDotted(a, b, c, d, e, f, g, h, i, j, k),
              ts, State(q, [C('-')], false), out);
  }

  /** The flush at the end of the fifth expression. */
  lemma FlushFifth(t0: Token, t1: Token, t2: Token, t3: Token, t4: Token, t5: Token, t6: Token, t7: Token,
                   t8: Token, t9: Token, t10: Token, t11: Token, t12: Token, t13: Token, o: Token)
    requires o.kind != LeftParen
    ensures Flush([o], [t0, t1] + [t2] + [t3, t4] + [t5, t6, t7, t8] + [t9, t10, t11] + [t12, t13])
            == Ok([t0, t1, t2, t3, t4, t5, t6, t7, t8, t9, t10, t11, t12, t13, o])
  {
    FlushOne(o, [t0, t1] + [t2] + [t3, t4] + [t5, t6, t7, t8] + [t9, t10, t11] + [t12, t13]);
    assert [t0, t1] + [t2] + [t3, t4] + [t5, t6, t7, t8] + [t9, t10, t11] + [t12, t13] + [o]
        == [t0, t1, t2, t3, t4, t5, t6, t7, t8, t9, t10, t11, t12, t13, o];
  }

  /** The fifth expression the demo driver converts:
      `1+(2*(2.5+2,5+(3-2)))-(3/1,5)` converts to
      `1 2 2.5 2.5 + 3 2 - + * + 3 1.5 / -`. */
  lemma FifthExample()
    ensures Postfix(FifthText("1", "2", "2", "5", "2", "5", "3", "2", "3", "1", "5"))
            == Ok([N("1"), N("2"), N("2.5"), N("2.5"), C('+'), N("3"), N("2"), C('-'), C('+'),
                   C('*'), C('+'), N("3"), N("1.5"), C('/'), C('-')])
  {
    FifthTextPostfix("1", "2", "2", "5", "2", "5", "3", "2", "3", "1", "5");
    assert "2" + ['.'] + "5" == "2.5";
    assert "1" + ['.'] + "5" == "1.5";
  }
}
