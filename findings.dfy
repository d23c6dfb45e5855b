/** The `)` branch of the converter and what it was meant to do.

    As written, the branch moves at most one entry to the output and then
    pops the next one, whatever it is. So an operator that sits between the
    top of the stack and the nearest `(` is dropped, and that `(` can stay
    on the stack. The textbook branch, which the comments in the branch
    describe, moves operators to the output until it meets the nearest `(`
    and then discards that `(`; a stack without `(` means an unmatched `)`.
    This module proves the loss on the branch as written, defines the
    intended branch and the converter built on it, and proves that the
    intended converter sends every operator of its input to the output. */
module ParenFinding {
  import opened Tokens
  import opened Normalizer
  import opened Tokenizer
  import opened Converter
  import opened Calculator

  /** The value `Operator` tokens have in a state: on the output and on the
      stack together. */
  function Operators(st: State): nat {
    Count(st.queue, Operator) + Count(st.stack, Operator)
  }

  // ---------------------------------------------------------------------
  // The branch as written

  /** As written, a `)` that finds an operator on top and another operator
      right under it outputs the first and drops the second. */
  lemma CloseParenLosesOperator(st: State, t: Token)
    requires |st.stack| >= 2 && Last(st.stack).kind == Operator
    requires st.stack[|st.stack| - 2].kind == Operator
    ensures CloseParen(st, t).Ok?
    ensures CloseParen(st, t).value.queue == st.queue + [Last(st.stack)]
    ensures Operators(CloseParen(st, t).value) == Operators(st) - 1
  {
    var s := st.stack;
    CountDropLast(s, Operator);
    CountDropLast(DropLast(s), Operator);
    assert Last(DropLast(s)) == s[|s| - 2];
    CountAppend(st.queue, [Last(s)], Operator);
    assert [Last(s)][1..] == [];
  }

  // ---------------------------------------------------------------------
  // The intended branch

  /** The position of the nearest `(` to the top of the stack, or -1 when
      the stack holds none. */
  function TopParen(stack: seq<Token>): (j: int)
    ensures -1 <= j < |stack|
    ensures j >= 0 ==> stack[j].kind == LeftParen
    ensures forall k :: j < k < |stack| ==> stack[k].kind != LeftParen
    decreases |stack|
  {
    if stack == [] then -1
    else if Last(stack).kind == LeftParen then |stack| - 1
    else TopParen(DropLast(stack))
  }

  /** The intended `)` loop, on (stack, queue): entries come off the stack
      onto the queue, top first, until the nearest `(`, which is discarded.
      It fails exactly when the stack holds no `(`. */
  function PopToLeftParen(t: Token, stack: seq<Token>, queue: seq<Token>): (r: Result<(seq<Token>, seq<Token>)>)
    ensures r.Ok? <==> TopParen(stack) >= 0
    ensures r.Ok? ==> r.value == (stack[..TopParen(stack)], queue + Reversed(stack[TopParen(stack) + 1..]))
    ensures r.Err? ==> r.error == UnmatchedRightParen(t)
    decreases |stack|
  {
    if stack == [] then Err(UnmatchedRightParen(t))
    else if Last(stack).kind == LeftParen then
      assert queue + Reversed(stack[|stack|..]) == queue;
      Ok((DropLast(stack), queue))
    else
      var r := PopToLeftParen(t, DropLast(stack), queue + [Last(stack)]);
      ghost var j := TopParen(stack);
      assert j == TopParen(DropLast(stack));
      assert j >= 0 ==> stack[j + 1..] == DropLast(stack)[j + 1..] + [Last(stack)];
      assert j >= 0 ==> DropLast(stack)[..j] == stack[..j];
      assert j >= 0 ==> Reversed(stack[j + 1..]) == [Last(stack)] + Reversed(DropLast(stack)[j + 1..]);
      assert j >= 0 ==> queue + [Last(stack)] + Reversed(DropLast(stack)[j + 1..])
                        == queue + Reversed(stack[j + 1..]);
      r
  }

  function CloseParenIntended(st: State, t: Token): Result<State> {
    match PopToLeftParen(t, st.stack, st.queue)
    case Err(e) => Err(e)
    case Ok((stack, queue)) => Ok(st.(queue := queue, stack := stack))
  }

  /** The loop body with the intended `)` branch; every other kind of token
      is handled as written. */
  function StepIntended(st: State, t: Token): Result<State> {
    if t.kind == RightParen then CloseParenIntended(st, t) else Step(st, t)
  }

  function RunIntended(st: State, ts: seq<Token>): Result<State>
    decreases |ts|
  {
    if ts == [] then Ok(st)
    else
      match StepIntended(st, ts[0])
      case Err(e) => Err(e)
      case Ok(next) => RunIntended(next, ts[1..])
  }

  /** The conversion with the intended `)` branch. */
  function ConvertIntended(tokens: seq<Token>): Result<seq<Token>> {
    match RunIntended(Start, tokens)
    case Err(e) => Err(e)
    case Ok(st) => Flush(st.stack, st.queue)
  }

  /** Where the nearest `(` is the top of the stack or right under it, the
      branch as written does what was intended; so does it on an empty
      stack. */
  lemma CloseParenAgreesNearParen(st: State, t: Token)
    requires st.stack == [] || (TopParen(st.stack) >= 0 && TopParen(st.stack) >= |st.stack| - 2)
    ensures CloseParen(st, t) == CloseParenIntended(st, t)
  {
    var s := st.stack;
    if s != [] && Last(s).kind != LeftParen {
      var j := TopParen(s);
      assert j == |s| - 2;
      assert s[j + 1..] == [Last(s)];
      assert Reversed([Last(s)]) == [Last(s)];
      assert DropLast(DropLast(s)) == s[..j];
    }
  }

  lemma {:induction false} CountReversed(s: seq<Token>, kind: TokenType)
    ensures Count(Reversed(s), kind) == Count(s, kind)
    decreases |s|
  {
    if s != [] {
      CountReversed(DropLast(s), kind);
      CountAppend([Last(s)], Reversed(DropLast(s)), kind);
      CountDropLast(s, kind);
      assert [Last(s)][1..] == [];
    }
  }

  lemma CountAppendToBack(queue: seq<Token>, s: string, kind: TokenType)
    requires queue != []
    ensures Count(AppendToBack(queue, s), kind) == Count(queue, kind)
  {
    CountAppend(DropLast(queue), [Last(queue).(str := Last(queue).str + s)], kind);
    CountDropLast(queue, kind);
    assert [Last(queue).(str := Last(queue).str + s)][1..] == [];
  }

  lemma CountPush(s: seq<Token>, t: Token, kind: TokenType)
    ensures Count(s + [t], kind) == Count(s, kind) + (if t.kind == kind then 1 else 0)
  {
    CountAppend(s, [t], kind);
    assert [t][1..] == [];
  }

  /** Moving a top segment of the stack onto the queue, in any order the
      stack gives it, keeps the operators. */
  lemma CountMoveTop(stack: seq<Token>, queue: seq<Token>, n: nat, kind: TokenType)
    requires n <= |stack|
    ensures Count(stack[..n], kind) + Count(queue + Reversed(stack[n..]), kind)
            == Count(stack, kind) + Count(queue, kind)
  {
    assert stack == stack[..n] + stack[n..];
    CountAppend(stack[..n], stack[n..], kind);
    CountAppend(queue, Reversed(stack[n..]), kind);
    CountReversed(stack[n..], kind);
  }

  /** Each token of the intended loop keeps every operator: an `Operator`
      token adds one, and nothing removes one. */
  lemma StepIntendedKeepsOperators(st: State, t: Token)
    requires StepIntended(st, t).Ok?
    ensures Operators(StepIntended(st, t).value) == Operators(st) + (if t.kind == Operator then 1 else 0)
  {
    if t.kind == RightParen {
      CloseParenIntendedKeepsOperators(st, t);
    } else if t.kind == Operator {
      OperatorKeepsOperators(st, t);
    } else {
      assert StepIntended(st, t) == Step(st, t);
      OperandKeepsOperators(st, t);
    }
  }

  lemma OperandKeepsOperators(st: State, t: Token)
    requires t.kind != RightParen && t.kind != Operator && Step(st, t).Ok?
    ensures Operators(Step(st, t).value) == Operators(st)
  {
    match t.kind
    case Number =>
      if st.queue != [] && '.' in Last(st.queue).str && !st.gotOperator {
        CountAppendToBack(st.queue, t.str, Operator);
      } else {
        CountPush(st.queue, t, Operator);
      }
    case Dot =>
      CountAppendToBack(st.queue, ".", Operator);
    case LeftParen =>
      CountPush(st.stack, t, Operator);
  }

  lemma OperatorKeepsOperators(st: State, t: Token)
    requires t.kind == Operator
    ensures Step(st, t).Ok? && Operators(Step(st, t).value) == Operators(st) + 1
  {
    var r := PopOperators(t, st.stack, st.queue);
    assert Step(st, t) == Ok(State(r.1, r.0 + [t], true));
    CountMoveTop(st.stack, st.queue, |r.0|, Operator);
    CountPush(r.0, t, Operator);
  }

  lemma CloseParenIntendedKeepsOperators(st: State, t: Token)
    requires CloseParenIntended(st, t).Ok?
    ensures Operators(CloseParenIntended(st, t).value) == Operators(st)
  {
    var j := TopParen(st.stack);
    var s := st.stack;
    assert CloseParenIntended(st, t).value.stack == s[..j];
    assert CloseParenIntended(st, t).value.queue == st.queue + Reversed(s[j + 1..]);
    assert s[j..] == [s[j]] + s[j + 1..];
    CountAppend([s[j]], s[j + 1..], Operator);
    assert [s[j]][1..] == [];
    CountMoveTop(s, st.queue, j, Operator);
    CountMoveTop(s, st.queue, j + 1, Operator);
    assert s[j..][1..] == s[j + 1..];
    assert s[..j + 1] == s[..j] + [s[j]];
    CountPush(s[..j], s[j], Operator);
  }

  lemma {:induction false} RunIntendedKeepsOperators(st: State, ts: seq<Token>)
    ensures RunIntended(st, ts).Ok? ==>
              Operators(RunIntended(st, ts).value) == Operators(st) + Count(ts, Operator)
    decreases |ts|
  {
    if ts != [] && StepIntended(st, ts[0]).Ok? {
      StepIntendedKeepsOperators(st, ts[0]);
      RunIntendedKeepsOperators(StepIntended(st, ts[0]).value, ts[1..]);
    }
  }

  /** The intended conversion outputs every operator of its input: no
      operator is lost on the way through the stack. */
  lemma ConvertIntendedKeepsOperators(tokens: seq<Token>)
    ensures ConvertIntended(tokens).Ok? ==>
              Count(ConvertIntended(tokens).value, Operator) == Count(tokens, Operator)
  {
    RunIntendedKeepsOperators(Start, tokens);
    if RunIntended(Start, tokens).Ok? {
      var st := RunIntended(Start, tokens).value;
      CountAppend(st.queue, Reversed(st.stack), Operator);
      CountReversed(st.stack, Operator);
    }
  }

  /** The intended loop differs from the loop as written only at `)`. */
  lemma {:induction false} RunIntendedAgrees(st: State, ts: seq<Token>)
    requires forall k :: 0 <= k < |ts| ==> ts[k].kind != RightParen
    ensures RunIntended(st, ts) == Run(st, ts)
    decreases |ts|
  {
    if ts != [] && Step(st, ts[0]).Ok? {
      RunIntendedAgrees(Step(st, ts[0]).value, ts[1..]);
    }
  }

  lemma RunIntendedLast(st: State, ts: seq<Token>, t: Token)
    requires RunIntended(st, ts).Ok?
    ensures RunIntended(st, ts + [t]) ==
              match StepIntended(RunIntended(st, ts).value, t)
              case Err(e) => Err(e)
              case Ok(next) => Ok(next)
    decreases |ts|
  {
    if ts == [] {
      assert [] + [t] == [t];
      assert [t][1..] == [];
    } else {
      assert (ts + [t])[0] == ts[0];
      assert (ts + [t])[1..] == ts[1..] + [t];
      RunIntendedLast(StepIntended(st, ts[0]).value, ts[1..], t);
    }
  }

  // ---------------------------------------------------------------------
  // Two inputs that show the difference

  /** `x a y b z )` with `b` ranked above `a`: as written, `b` comes out,
      `a` is dropped and the stray `)` is accepted; the intended branch
      rejects the `)`. */
  lemma StrayParenDropsOperator(x: Token, a: Token, y: Token, b: Token, z: Token, rp: Token)
    requires x.kind == Number && y.kind == Number && z.kind == Number
    requires a.kind == Operator && b.kind == Operator && !Pops(b, a)
    requires rp.kind == RightParen
    ensures Convert([x, a, y, b, z, rp]) == Ok([x, y, z, b])
    ensures Count([x, a, y, b, z, rp], Operator) == 2 && Count([x, y, z, b], Operator) == 1
    ensures ConvertIntended([x, a, y, b, z, rp]) == Err(UnmatchedRightParen(rp))
  {
    var ts := [x, a, y, b, z];
    var st := State([x, y] + [z], [a, b], false);
    RunTwoOperators(x, a, y, b, z);
    assert [x, a, y, b, z, rp] == ts + [rp];
    RunAppend(Start, ts, [rp]);
    RunCons(st, rp, []);
    assert [rp] + [] == [rp];
    assert [x, y] + [z] + [b] == [x, y, z, b];
    assert Flush([], [x, y, z, b]) == Ok([x, y, z, b]);
    RunIntendedAgrees(Start, ts);
    RunIntendedLast(Start, ts, rp);
    assert TopParen([a]) == -1;
    OperatorCounts(x, a, y, b, z, rp);
  }

  lemma OperatorCounts(x: Token, a: Token, y: Token, b: Token, z: Token, rp: Token)
    requires x.kind == Number && y.kind == Number && z.kind == Number
    requires a.kind == Operator && b.kind == Operator && rp.kind == RightParen
    ensures Count([x, a, y, b, z, rp], Operator) == 2 && Count([x, y, z, b], Operator) == 1
  {
    assert Count([rp], Operator) == 0 by {
      assert [rp][1..] == [];
    }
    assert Count([z, rp], Operator) == 0 by {
      assert [z, rp][1..] == [rp];
    }
    assert Count([b, z, rp], Operator) == 1 by {
      assert [b, z, rp][1..] == [z, rp];
    }
    assert Count([y, b, z, rp], Operator) == 1 by {
      assert [y, b, z, rp][1..] == [b, z, rp];
    }
    assert Count([a, y, b, z, rp], Operator) == 2 by {
      assert [a, y, b, z, rp][1..] == [y, b, z, rp];
    }
    assert [x, a, y, b, z, rp][1..] == [a, y, b, z, rp];
    assert Count([b], Operator) == 1 by {
      assert [b][1..] == [];
    }
    assert Count([z, b], Operator) == 1 by {
      assert [z, b][1..] == [b];
    }
    assert Count([y, z, b], Operator) == 1 by {
      assert [y, z, b][1..] == [z, b];
    }
    assert [x, y, z, b][1..] == [y, z, b];
  }

  /** `x a y )`: as written, the `)` outputs `a` and then pops the empty
      stack; the intended branch reports the unmatched `)`. */
  lemma OneOperatorStrayParen(x: Token, a: Token, y: Token, rp: Token)
    requires x.kind == Number && y.kind == Number && a.kind == Operator && rp.kind == RightParen
    ensures Convert([x, a, y, rp]) == Err(RightParenPopsEmptyStack)
    ensures ConvertIntended([x, a, y, rp]) == Err(UnmatchedRightParen(rp))
  {
    var s1 := State([x], [], false);
    var s2 := State([x], [a], true);
    var s3 := State([x, y], [a], false);
    assert Step(Start, x) == Ok(s1) by {
      StepNumberFirst(Start, x);
    }
    assert Step(s1, a) == Ok(s2) by {
      StepOperatorShort(s1, a);
    }
    assert Step(s2, y) == Ok(s3) by {
      StepNumberApart(s2, y);
      assert [x] + [y] == [x, y];
    }
    assert Run(s2, [y]) == Ok(s3) by {
      RunCons(s2, y, []);
      assert [y] + [] == [y];
    }
    assert Run(s1, [a, y]) == Ok(s3) by {
      RunCons(s1, a, [y]);
      assert [a] + [y] == [a, y];
    }
    assert Run(Start, [x, a, y]) == Ok(s3) by {
      RunCons(Start, x, [a, y]);
      assert [x] + [a, y] == [x, a, y];
    }
    assert [x, a, y, rp] == [x, a, y] + [rp];
    RunAppend(Start, [x, a, y], [rp]);
    assert [rp][1..] == [];
    RunIntendedAgrees(Start, [x, a, y]);
    RunIntendedLast(Start, [x, a, y], rp);
    assert TopParen([a]) == -1;
  }

  /** The loop over `( x a y b z`, none of whose operators pops anything. */
  lemma RunBracketed(lp: Token, x: Token, a: Token, y: Token, b: Token, z: Token)
    requires lp.kind == LeftParen && x.kind == Number && y.kind == Number && z.kind == Number
    requires a.kind == Operator && b.kind == Operator && !Pops(a, lp) && !Pops(b, a)
    ensures Run(Start, [lp, x, a, y, b, z]) == Ok(State([x, y, z], [lp, a, b], false))
  {
    var s0 := State([], [lp], false);
    var s1 := State([x], [lp], false);
    var s2 := State([x], [lp, a], true);
    var s3 := State([x, y], [lp, a], false);
    var s4 := State([x, y], [lp, a, b], true);
    var s5 := State([x, y, z], [lp, a, b], false);
    assert Step(Start, lp) == Ok(s0) by {
      StepLeftParen(Start, lp);
      assert [] + [lp] == [lp];
    }
    assert Step(s0, x) == Ok(s1) by {
      StepNumberFirst(s0, x);
    }
    assert Step(s1, a) == Ok(s2) by {
      StepOperatorPush(s1, a);
      assert [lp] + [a] == [lp, a];
    }
    assert Step(s2, y) == Ok(s3) by {
      StepNumberApart(s2, y);
      assert [x] + [y] == [x, y];
    }
    assert Step(s3, b) == Ok(s4) by {
      StepOperatorPush(s3, b);
      assert [lp, a] + [b] == [lp, a, b];
    }
    assert Step(s4, z) == Ok(s5) by {
      StepNumberApart(s4, z);
      assert [x, y] + [z] == [x, y, z];
    }
    RunFive(s0, x, s1, a, s2, y, s3, b, s4, z, s5);
    RunCons(Start, lp, [x, a, y, b, z]);
    assert [lp] + [x, a, y, b, z] == [lp, x, a, y, b, z];
  }

  /** `( x a y b z )` with `b` ranked above `a`: as written, `a` is dropped
      and the `(` stays on the stack, so the input is rejected as having
      mismatched parentheses; the intended branch outputs `x y z b a`. */
  lemma BracketedDropsOperator(lp: Token, x: Token, a: Token, y: Token, b: Token, z: Token, rp: Token)
    requires lp.kind == LeftParen && x.kind == Number && y.kind == Number && z.kind == Number
    requires a.kind == Operator && b.kind == Operator && !Pops(a, lp) && !Pops(b, a)
    requires rp.kind == RightParen
    ensures Convert([lp, x, a, y, b, z, rp]) == Err(MismatchedParens)
    ensures ConvertIntended([lp, x, a, y, b, z, rp]) == Ok([x, y, z, b, a])
  {
    var ts := [lp, x, a, y, b, z];
    var st := State([x, y, z], [lp, a, b], false);
    RunBracketed(lp, x, a, y, b, z);
    assert [lp, x, a, y, b, z, rp] == ts + [rp];
    RunAppend(Start, ts, [rp]);
    RunCons(st, rp, []);
    assert [rp] + [] == [rp];
    assert DropLast(DropLast([lp, a, b])) == [lp];
    RunIntendedAgrees(Start, ts);
    RunIntendedLast(Start, ts, rp);
    assert TopParen([lp, a, b]) == 0 by {
      assert TopParen([lp, a]) == TopParen([lp]) by {
        assert DropLast([lp, a]) == [lp];
      }
      assert DropLast([lp, a, b]) == [lp, a];
    }
    assert [lp, a, b][1..] == [a, b];
    assert Reversed([a, b]) == [b, a];
    assert [x, y, z] + [b, a] == [x, y, z, b, a];
  }
  // ---------------------------------------------------------------------
  // The same on strings

  /** What the intended converter makes of an expression after the same
      normalising and scanning. */
  function IntendedPostfix(expr: string): Result<seq<Token>> {
    ConvertIntended(Tokenize(Formatted(expr)))
  }

  /** The text `x+y*z)`, for numerals `x`, `y`, `z`. */
  function StrayText(x: string, y: string, z: string): string {
    x + ['+'] + y + ['*'] + z + [')']
  }

  /** The text `(x+y*z)`. */
  function BracketedText(x: string, y: string, z: string): string {
    ['('] + StrayText(x, y, z)
  }

  /** The text `x+y)`. */
  function ShortStrayText(x: string, y: string): string {
    x + ['+'] + y + [')']
  }

  lemma TokenizeStrayText(x: string, y: string, z: string)
    requires Numeral(x) && Numeral(y) && Numeral(z)
    ensures Formatted(StrayText(x, y, z)) == StrayText(x, y, z)
    ensures Tokenize(StrayText(x, y, z))
            == [NumberToken(x), Classify('+'), NumberToken(y), Classify('*'), NumberToken(z), Classify(')')]
  {
    NumeralIsPlain(x); NumeralIsPlain(y); NumeralIsPlain(z);
    FormattedKeepsClean(StrayText(x, y, z));
    TokenizeNumeral(x);
    TokenizeThenChar(x, '+');
    TokenizeThenNumeral(x + ['+'], y);
    TokenizeThenChar(x + ['+'] + y, '*');
    TokenizeThenNumeral(x + ['+'] + y + ['*'], z);
    TokenizeThenChar(x + ['+'] + y + ['*'] + z, ')');
  }

  /** `x+y*z)`: as written, the `+` is lost and the stray `)` is accepted;
      the intended branch rejects the `)`. */
  lemma StrayParenText(x: string, y: string, z: string)
    requires Numeral(x) && Numeral(y) && Numeral(z)
    ensures Postfix(StrayText(x, y, z)) == Ok([NumberToken(x), NumberToken(y), NumberToken(z), Classify('*')])
    ensures IntendedPostfix(StrayText(x, y, z)) == Err(UnmatchedRightParen(Classify(')')))
  {
    TokenizeStrayText(x, y, z);
    StrayParenDropsOperator(NumberToken(x), Classify('+'), NumberToken(y), Classify('*'), NumberToken(z), Classify(')'));
  }

  /** `(x+y*z)`: as written, the `+` is lost and the `(` left behind makes
      the input fail as mismatched; the intended branch outputs `x y z * +`. */
  lemma BracketedParenText(x: string, y: string, z: string)
    requires Numeral(x) && Numeral(y) && Numeral(z)
    ensures Postfix(BracketedText(x, y, z)) == Err(MismatchedParens)
    ensures IntendedPostfix(BracketedText(x, y, z))
            == Ok([NumberToken(x), NumberToken(y), NumberToken(z), Classify('*'), Classify('+')])
  {
    var inner := StrayText(x, y, z);
    TokenizeStrayText(x, y, z);
    assert Formatted(BracketedText(x, y, z)) == BracketedText(x, y, z) by {
      FormattedAppend(['('], inner);
      assert Formatted(['(']) == ['('];
    }
    assert Tokenize(BracketedText(x, y, z)) == [Classify('(')] + Tokenize(inner) by {
      TokenizeCharThen('(', inner);
    }
    BracketedDropsOperator(Classify('('), NumberToken(x), Classify('+'), NumberToken(y), Classify('*'),
                           NumberToken(z), Classify(')'));
  }

  lemma TokenizeShortStrayText(x: string, y: string)
    requires Numeral(x) && Numeral(y)
    ensures Formatted(ShortStrayText(x, y)) == ShortStrayText(x, y)
    ensures Tokenize(ShortStrayText(x, y)) == [NumberToken(x), Classify('+'), NumberToken(y), Classify(')')]
  {
    NumeralIsPlain(x); NumeralIsPlain(y);
    FormattedKeepsClean(ShortStrayText(x, y));
    TokenizeNumeral(x);
    TokenizeThenChar(x, '+');
    TokenizeThenNumeral(x + ['+'], y);
    TokenizeThenChar(x + ['+'] + y, ')');
  }

  /** `x+y)`: as written, the second pop of the `)` branch finds the stack
      empty; the intended branch reports the unmatched `)`. */
  lemma ShortStrayParenText(x: string, y: string)
    requires Numeral(x) && Numeral(y)
    ensures Postfix(ShortStrayText(x, y)) == Err(RightParenPopsEmptyStack)
    ensures IntendedPostfix(ShortStrayText(x, y)) == Err(UnmatchedRightParen(Classify(')')))
  {
    TokenizeShortStrayText(x, y);
    OneOperatorStrayParen(NumberToken(x), Classify('+'), NumberToken(y), Classify(')'));
  }

  /** `1+2*3)`. */
  lemma StrayParenInput()
    ensures Postfix(StrayText("1", "2", "3"))
            == Ok([NumberToken("1"), NumberToken("2"), NumberToken("3"), Classify('*')])
    ensures IntendedPostfix(StrayText("1", "2", "3")) == Err(UnmatchedRightParen(Classify(')')))
  {
    StrayParenText("1", "2", "3");
  }

  /** `(1+2*3)`. */
  lemma BracketedInput()
    ensures Postfix(BracketedText("1", "2", "3")) == Err(MismatchedParens)
    ensures IntendedPostfix(BracketedText("1", "2", "3"))
            == Ok([NumberToken("1"), NumberToken("2"), NumberToken("3"), Classify('*'), Classify('+')])
  {
    BracketedParenText("1", "2", "3");
  }

  /** `1+2)`. */
  lemma OneOperatorInput()
    ensures Postfix(ShortStrayText("1", "2")) == Err(RightParenPopsEmptyStack)
    ensures IntendedPostfix(ShortStrayText("1", "2")) == Err(UnmatchedRightParen(Classify(')')))
  {
    ShortStrayParenText("1", "2");
  }
}
