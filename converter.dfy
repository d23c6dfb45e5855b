/** The shunting-yard converter, as the code is written: an output queue, an
    operator stack and a flag that remembers whether an operator was seen
    since the last number was pushed, used to glue the digits after a decimal
    point onto the last output token. The process exits of the source, and the
    two places where it reads or pops an empty container, are error results. */
module Converter {
  import opened Tokens

  datatype Error =
    | UnknownToken(token: Token)         // a token of no handled kind
    | UnmatchedRightParen(token: Token)  // a `)` that finds the stack empty
    | MismatchedParens                   // a `(` still on the stack at the end
    | DotWithEmptyQueue                  // a `.` before anything was output
    | RightParenPopsEmptyStack           // the `)` branch's second pop finds the stack empty

  datatype Result<T> = Ok(value: T) | Err(error: Error)

  /** The converter's working state between two input tokens. */
  datatype State = State(queue: seq<Token>, stack: seq<Token>, gotOperator: bool)

  const Start := State([], [], false)

  function Last(s: seq<Token>): Token
    requires s != []
  {
    s[|s| - 1]
  }

  function DropLast(s: seq<Token>): seq<Token>
    requires s != []
  {
    s[..|s| - 1]
  }

  /** The order in which a stack's entries come off it: top first. */
  function Reversed(s: seq<Token>): (r: seq<Token>)
    ensures |r| == |s|
    ensures forall k :: 0 <= k < |s| ==> r[k] == s[|s| - 1 - k]
  {
    if s == [] then [] else [Last(s)] + Reversed(DropLast(s))
  }

  /** The operator rule: an incoming operator `o1` pops the stack's top `o2`
      when `o1` is left-associative and does not outrank `o2`, or is
      right-associative and ranks strictly below it. */
  predicate Pops(o1: Token, o2: Token) {
    (!o1.rightAssociative && o1.precedence <= o2.precedence)
    || (o1.rightAssociative && o1.precedence < o2.precedence)
  }

  /** The popping loop of the operator branch, on (stack, queue): the stack
      loses a top segment whose every entry `o1` pops, in top-first order onto
      the queue, and what is left is empty or has a top `o1` does not pop. */
  function PopOperators(o1: Token, stack: seq<Token>, queue: seq<Token>): (r: (seq<Token>, seq<Token>))
    ensures |r.0| <= |stack| && r.0 == stack[..|r.0|]
    ensures r.1 == queue + Reversed(stack[|r.0|..])
    ensures forall k :: |r.0| <= k < |stack| ==> Pops(o1, stack[k])
    ensures r.0 == [] || !Pops(o1, Last(r.0))
    decreases |stack|
  {
    if stack != [] && Pops(o1, Last(stack)) then
      var r := PopOperators(o1, DropLast(stack), queue + [Last(stack)]);
      PopOneMore(stack, |r.0|, queue);
      r
    else
      (stack, queue)
  }

  /** Popping the top of `stack`, then the entries of `DropLast(stack)`
      from `n` up, is popping the entries of `stack` from `n` up. */
  lemma PopOneMore(stack: seq<Token>, n: nat, queue: seq<Token>)
    requires stack != [] && n < |stack|
    ensures DropLast(stack)[..n] == stack[..n]
    ensures queue + [Last(stack)] + Reversed(DropLast(stack)[n..]) == queue + Reversed(stack[n..])
  {
    assert stack[n..] == DropLast(stack)[n..] + [Last(stack)];
    assert Reversed(stack[n..]) == [Last(stack)] + Reversed(DropLast(stack)[n..]);
  }

  /** `queue.back().str += s`. */
  function AppendToBack(queue: seq<Token>, s: string): seq<Token>
    requires queue != []
  {
    DropLast(queue) + [Last(queue).(str := Last(queue).str + s)]
  }

  /** The `)` branch as written: a top that is not `(` moves to the output,
      and then the next entry is popped and dropped, whatever it is. */
  function CloseParen(st: State, t: Token): Result<State> {
    if st.stack == [] then Err(UnmatchedRightParen(t))
    else if Last(st.stack).kind == LeftParen then Ok(st.(stack := DropLast(st.stack)))
    else if |st.stack| == 1 then Err(RightParenPopsEmptyStack)
    else Ok(st.(queue := st.queue + [Last(st.stack)], stack := DropLast(DropLast(st.stack))))
  }

  /** One iteration of the loop over the input tokens. */
  function Step(st: State, t: Token): Result<State> {
    match t.kind
    case Number =>
      if st.queue != [] then
        if '.' in Last(st.queue).str && !st.gotOperator then Ok(st.(queue := AppendToBack(st.queue, t.str)))
        else Ok(State(st.queue + [t], st.stack, false))
      else Ok(st.(queue := st.queue + [t]))
    case Dot =>
      if st.queue == [] then Err(DotWithEmptyQueue)
      else Ok(st.(queue := AppendToBack(st.queue, ".")))
    case Operator =>
      var (stack', queue') := PopOperators(t, st.stack, st.queue);
      Ok(State(queue', stack' + [t], true))
    case LeftParen => Ok(st.(stack := st.stack + [t]))
    case RightParen => CloseParen(st, t)
    case Unknown => Err(UnknownToken(t))
  }

  /** The loop over the input: stops at the first error. */
  function Run(st: State, ts: seq<Token>): Result<State>
    decreases |ts|
  {
    if ts == [] then Ok(st)
    else
      match Step(st, ts[0])
      case Err(e) => Err(e)
      case Ok(next) => Run(next, ts[1..])
  }

  /** The closing loop: the stack is emptied onto the queue top first, and a
      `(` anywhere on it is an error. */
  function Flush(stack: seq<Token>, queue: seq<Token>): (r: Result<seq<Token>>)
    ensures r.Ok? <==> forall k :: 0 <= k < |stack| ==> stack[k].kind != LeftParen
    ensures r.Ok? ==> r.value == queue + Reversed(stack)
    ensures r.Err? ==> r.error == MismatchedParens
    decreases |stack|
  {
    if stack == [] then Ok(queue)
    else if Last(stack).kind == LeftParen then Err(MismatchedParens)
    else
      var r := Flush(DropLast(stack), queue + [Last(stack)]);
      assert forall k :: 0 <= k < |DropLast(stack)| ==> DropLast(stack)[k] == stack[k];
      r
  }

  /** What `ShuntingYard` computes from a token sequence. */
  function Convert(tokens: seq<Token>): Result<seq<Token>> {
    match Run(Start, tokens)
    case Err(e) => Err(e)
    case Ok(st) => Flush(st.stack, st.queue)
  }

  /** `ShuntingYard`. The `)` branch's `while` always leaves through its
      `break` after one pass, so it is written as the conditional it is. */
  method ShuntingYard(tokens: seq<Token>) returns (r: Result<seq<Token>>)
    ensures r == Convert(tokens)
  {
    var queue: seq<Token> := [];
    var stack: seq<Token> := [];
    var gotOperator := false;
    for i := 0 to |tokens|
      invariant Run(Start, tokens) == Run(State(queue, stack, gotOperator), tokens[i..])
    {
      var token := tokens[i];
      ghost var before := State(queue, stack, gotOperator);
      assert tokens[i..][1..] == tokens[i + 1..];
      match token.kind {
        case Number =>
          if queue != [] {
            if '.' in queue[|queue| - 1].str && !gotOperator {
              queue := AppendToBack(queue, token.str);
            } else {
              queue := queue + [token];
              gotOperator := false;
            }
          } else {
            queue := queue + [token];
          }
        case Dot =>
          if queue == [] {
            return Err(DotWithEmptyQueue);
          }
          queue := AppendToBack(queue, ".");
        case Operator =>
          gotOperator := true;
          ghost var stack0, queue0 := stack, queue;
          while stack != []
            invariant PopOperators(token, stack, queue) == PopOperators(token, stack0, queue0)
            decreases |stack|
          {
            var o2 := stack[|stack| - 1];
            if Pops(token, o2) {
              stack := stack[..|stack| - 1];
              queue := queue + [o2];
              continue;
            }
            break;
          }
          assert PopOperators(token, stack0, queue0) == (stack, queue);
          stack := stack + [token];
        case LeftParen =>
          stack := stack + [token];
        case RightParen =>
          if stack == [] {
            return Err(UnmatchedRightParen(token));
          }
          var tos := stack[|stack| - 1];
          if tos.kind != LeftParen {
            stack := stack[..|stack| - 1];
            queue := queue + [tos];
          }
          if stack == [] {
            return Err(RightParenPopsEmptyStack);
          }
          stack := stack[..|stack| - 1];
          assert CloseParen(before, token) == Ok(State(queue, stack, gotOperator));
        case Unknown =>
          return Err(UnknownToken(token));
      }
      assert Step(before, token) == Ok(State(queue, stack, gotOperator));
    }
    ghost var stack0, queue0 := stack, queue;
    while stack != []
      invariant Flush(stack, queue) == Flush(stack0, queue0)
      decreases |stack|
    {
      if stack[|stack| - 1].kind == LeftParen {
        return Err(MismatchedParens);
      }
      queue := queue + [stack[|stack| - 1]];
      stack := stack[..|stack| - 1];
    }
    r := Ok(queue);
  }

  // ---------------------------------------------------------------------
  // Properties of the conversion

  /** One iteration of the loop, then the rest of the input. */
  lemma RunCons(st: State, t: Token, ts: seq<Token>)
    requires Step(st, t).Ok?
    ensures Run(st, [t] + ts) == Run(Step(st, t).value, ts)
  {
    assert ([t] + ts)[1..] == ts;
  }

  /** Runs compose: the input split in two is the first part, then the
      second from where the first left off; a failing first part fails the
      whole. */
  lemma {:induction false} RunAppend(st: State, a: seq<Token>, b: seq<Token>)
    ensures Run(st, a).Ok? ==> Run(st, a + b) == Run(Run(st, a).value, b)
    ensures Run(st, a).Err? ==> Run(st, a + b) == Run(st, a)
    decreases |a|
  {
    if a == [] {
      assert a + b == b;
    } else {
      assert (a + b)[0] == a[0];
      assert (a + b)[1..] == a[1..] + b;
      if Step(st, a[0]).Ok? {
        RunAppend(Step(st, a[0]).value, a[1..], b);
      }
    }
  }

  /** The operator stack holds only operators and left parentheses. */
  predicate OperatorStack(stack: seq<Token>) {
    forall k :: 0 <= k < |stack| ==> stack[k].kind == Operator || stack[k].kind == LeftParen
  }

  lemma StepKeepsOperatorStack(st: State, t: Token)
    requires OperatorStack(st.stack) && Step(st, t).Ok?
    ensures OperatorStack(Step(st, t).value.stack)
  {
  }

  /** Whatever the input, after any number of tokens the operator stack holds
      only `Operator` and `LeftParen` tokens. */
  lemma {:induction false} RunKeepsOperatorStack(st: State, ts: seq<Token>)
    requires OperatorStack(st.stack)
    ensures Run(st, ts).Ok? ==> OperatorStack(Run(st, ts).value.stack)
    decreases |ts|
  {
    if ts != [] && Step(st, ts[0]).Ok? {
      StepKeepsOperatorStack(st, ts[0]);
      RunKeepsOperatorStack(Step(st, ts[0]).value, ts[1..]);
    }
  }

  /** The stack discipline from the start of a conversion: every prefix of
      the input leaves only operators and `(` on the stack. */
  lemma StackHoldsOperatorsAndParens(tokens: seq<Token>, i: nat)
    requires i <= |tokens|
    ensures Run(Start, tokens[..i]).Ok? ==> OperatorStack(Run(Start, tokens[..i]).value.stack)
  {
    RunKeepsOperatorStack(Start, tokens[..i]);
  }

  /** The output queue holds only numbers and operators. */
  predicate OutputQueue(queue: seq<Token>) {
    forall k :: 0 <= k < |queue| ==> queue[k].kind == Number || queue[k].kind == Operator
  }

  predicate Sound(st: State) {
    OperatorStack(st.stack) && (forall k :: 0 <= k < |st.stack| ==> Ranked(st.stack[k]))
    && OutputQueue(st.queue)
  }

  /** An operator never pops a `(`: a left parenthesis ranks below every
      operator, so neither arm of the rule holds. */
  lemma OperatorNeverPopsParen(o1: Token, o2: Token)
    requires Ranked(o1) && Ranked(o2) && o1.kind == Operator
    ensures o2.kind == LeftParen ==> !Pops(o1, o2)
  {
  }

  lemma StepKeepsSound(st: State, t: Token)
    requires Sound(st) && Ranked(t) && Step(st, t).Ok?
    ensures Sound(Step(st, t).value)
  {
    if t.kind == Operator {
      var r := PopOperators(t, st.stack, st.queue);
      forall k | |r.0| <= k < |st.stack|
        ensures st.stack[k].kind == Operator
      {
        OperatorNeverPopsParen(t, st.stack[k]);
      }
    }
  }

  lemma {:induction false} RunKeepsSound(st: State, ts: seq<Token>)
    requires Sound(st) && forall k :: 0 <= k < |ts| ==> Ranked(ts[k])
    ensures Run(st, ts).Ok? ==> Sound(Run(st, ts).value)
    decreases |ts|
  {
    if ts != [] && Step(st, ts[0]).Ok? {
      StepKeepsSound(st, ts[0]);
      RunKeepsSound(Step(st, ts[0]).value, ts[1..]);
    }
  }

  /** A successful conversion of ranked tokens (every token the tokeniser
      builds is ranked) outputs only `Number` and `Operator` tokens: no
      parenthesis, no `Dot` and no `Unknown` reaches the postfix queue. */
  lemma ConvertOutputsNumbersAndOperators(tokens: seq<Token>)
    requires forall k :: 0 <= k < |tokens| ==> Ranked(tokens[k])
    ensures Convert(tokens).Ok? ==> OutputQueue(Convert(tokens).value)
  {
    RunKeepsSound(Start, tokens);
  }

  lemma {:induction false} RunFailsOnUnknown(st: State, ts: seq<Token>, i: nat)
    requires i < |ts| && ts[i].kind == Unknown
    ensures Run(st, ts).Err?
    decreases |ts|
  {
    if i > 0 && Step(st, ts[0]).Ok? {
      RunFailsOnUnknown(Step(st, ts[0]).value, ts[1..], i - 1);
    }
  }

  /** An `Unknown` token anywhere in the input makes the conversion fail. */
  lemma ConvertRejectsUnknown(tokens: seq<Token>, i: nat)
    requires i < |tokens| && tokens[i].kind == Unknown
    ensures Convert(tokens).Err?
  {
    RunFailsOnUnknown(Start, tokens, i);
  }

  /** The number of tokens of one kind. */
  function Count(ts: seq<Token>, kind: TokenType): nat {
    if ts == [] then 0 else (if ts[0].kind == kind then 1 else 0) + Count(ts[1..], kind)
  }

  lemma {:induction false} CountAppend(a: seq<Token>, b: seq<Token>, kind: TokenType)
    ensures Count(a + b, kind) == Count(a, kind) + Count(b, kind)
    decreases |a|
  {
    if a == [] {
      assert a + b == b;
    } else {
      assert (a + b)[1..] == a[1..] + b;
      CountAppend(a[1..], b, kind);
    }
  }

  lemma {:induction false} CountNone(s: seq<Token>, kind: TokenType)
    requires forall k :: 0 <= k < |s| ==> s[k].kind != kind
    ensures Count(s, kind) == 0
    decreases |s|
  {
    if s != [] {
      CountNone(s[1..], kind);
    }
  }

  lemma CountDropLast(s: seq<Token>, kind: TokenType)
    requires s != []
    ensures Count(s, kind) == Count(DropLast(s), kind) + (if Last(s).kind == kind then 1 else 0)
  {
    assert s == DropLast(s) + [Last(s)];
    CountAppend(DropLast(s), [Last(s)], kind);
  }

  /** One token removes at most one `(` from the stack, and only a `)` removes
      one. */
  lemma StepParenBalance(st: State, t: Token)
    requires Sound(st) && Ranked(t) && Step(st, t).Ok?
    ensures Count(Step(st, t).value.stack, LeftParen) + (if t.kind == RightParen then 1 else 0)
            >= Count(st.stack, LeftParen) + (if t.kind == LeftParen then 1 else 0)
  {
    var next := Step(st, t).value;
    match t.kind
    case Operator =>
      var r := PopOperators(t, st.stack, st.queue);
      assert forall k :: 0 <= k < |st.stack[|r.0|..]| ==> st.stack[|r.0|..][k].kind != LeftParen;
      CountNone(st.stack[|r.0|..], LeftParen);
      assert st.stack == r.0 + st.stack[|r.0|..];
      CountAppend(r.0, st.stack[|r.0|..], LeftParen);
      CountAppend(r.0, [t], LeftParen);
    case LeftParen =>
      CountAppend(st.stack, [t], LeftParen);
    case RightParen =>
      CountDropLast(st.stack, LeftParen);
      if Last(st.stack).kind != LeftParen {
        CountDropLast(DropLast(st.stack), LeftParen);
      }
    case _ =>
  }

  lemma {:induction false} RunParenBalance(st: State, ts: seq<Token>)
    requires Sound(st) && forall k :: 0 <= k < |ts| ==> Ranked(ts[k])
    ensures Run(st, ts).Ok? ==>
              Count(Run(st, ts).value.stack, LeftParen) + Count(ts, RightParen)
              >= Count(st.stack, LeftParen) + Count(ts, LeftParen)
    decreases |ts|
  {
    if ts != [] && Step(st, ts[0]).Ok? {
      StepParenBalance(st, ts[0]);
      StepKeepsSound(st, ts[0]);
      RunParenBalance(Step(st, ts[0]).value, ts[1..]);
    }
  }

  /** An unclosed `(` never converts: a successful conversion of ranked tokens
      has at least as many `)` as `(`. */
  lemma ConvertClosesEveryParen(tokens: seq<Token>)
    requires forall k :: 0 <= k < |tokens| ==> Ranked(tokens[k])
    ensures Convert(tokens).Ok? ==> Count(tokens, LeftParen) <= Count(tokens, RightParen)
  {
    RunParenBalance(Start, tokens);
    if Run(Start, tokens).Ok? {
      var st := Run(Start, tokens).value;
      if Convert(tokens).Ok? {
        CountNone(st.stack, LeftParen);
      }
    }
  }

  // ---------------------------------------------------------------------
  // Short token sequences, token by token

  /** A number reaching an empty queue is simply pushed. */
  lemma StepNumberFirst(st: State, t: Token)
    requires t.kind == Number && st.queue == []
    ensures Step(st, t) == Ok(st.(queue := [t]))
  {
    assert [] + [t] == [t];
  }

  /** A number becomes a token of its own when the last output token holds
      no point, or an operator came since; the flag is lowered. */
  lemma StepNumberApart(st: State, t: Token)
    requires t.kind == Number && st.queue != []
    requires '.' !in Last(st.queue).str || st.gotOperator
    ensures Step(st, t) == Ok(State(st.queue + [t], st.stack, false))
  {
  }

  /** A number is glued onto the last output token when that token holds a
      point and no operator came since; its kind does not matter. */
  lemma StepNumberGlued(st: State, t: Token)
    requires t.kind == Number && st.queue != []
    requires '.' in Last(st.queue).str && !st.gotOperator
    ensures Step(st, t) == Ok(st.(queue := DropLast(st.queue) + [Last(st.queue).(str := Last(st.queue).str + t.str)]))
  {
  }

  /** A point is appended to the text of the last output token, whatever
      its kind. */
  lemma StepDot(st: State, t: Token)
    requires t.kind == Dot && st.queue != []
    ensures Step(st, t) == Ok(st.(queue := DropLast(st.queue) + [Last(st.queue).(str := Last(st.queue).str + ".")]))
  {
  }

  /** An operator meeting a stack of at most one operator: it pops that one
      exactly when the operator rule says so, and is pushed; the flag is
      raised. */
  lemma StepOperatorShort(st: State, t: Token)
    requires t.kind == Operator && |st.stack| <= 1
    ensures st.stack == [] ==> Step(st, t) == Ok(State(st.queue, [t], true))
    ensures st.stack != [] && Pops(t, st.stack[0]) ==>
              Step(st, t) == Ok(State(st.queue + [st.stack[0]], [t], true))
    ensures st.stack != [] && !Pops(t, st.stack[0]) ==>
              Step(st, t) == Ok(State(st.queue, st.stack + [t], true))
  {
    assert [] + [t] == [t];
    if st.stack != [] {
      assert Reversed([st.stack[0]]) == [st.stack[0]];
      assert st.stack == [st.stack[0]];
    }
  }

  /** An operator that does not pop the top of the stack is pushed onto
      it. */
  lemma StepOperatorPush(st: State, t: Token)
    requires t.kind == Operator && st.stack != [] && !Pops(t, Last(st.stack))
    ensures Step(st, t) == Ok(State(st.queue, st.stack + [t], true))
  {
    assert st.stack[|st.stack|..] == [];
  }

  /** An operator that pops the top of the stack but not the entry under
      it moves exactly that top to the output. */
  lemma StepOperatorPopOne(st: State, t: Token)
    requires t.kind == Operator && |st.stack| >= 2 && Pops(t, Last(st.stack))
    requires !Pops(t, st.stack[|st.stack| - 2])
    ensures Step(st, t) == Ok(State(st.queue + [Last(st.stack)], DropLast(st.stack) + [t], true))
  {
    var s := st.stack;
    assert Last(DropLast(s)) == s[|s| - 2];
    assert PopOperators(t, DropLast(s), st.queue + [Last(s)]) == (DropLast(s), st.queue + [Last(s)]);
  }

  /** An operator that pops both entries of a two-entry stack moves them
      to the output, top first. */
  lemma StepOperatorPopTwo(st: State, t: Token)
    requires t.kind == Operator && |st.stack| == 2
    requires Pops(t, st.stack[1]) && Pops(t, st.stack[0])
    ensures Step(st, t) == Ok(State(st.queue + [st.stack[1], st.stack[0]], [t], true))
  {
    var s := st.stack;
    var q := st.queue + [s[1]] + [s[0]];
    assert DropLast(s) == [s[0]] && Last(s) == s[1];
    assert DropLast([s[0]]) == [] && Last([s[0]]) == s[0];
    assert PopOperators(t, [], q) == ([], q);
    assert PopOperators(t, [s[0]], st.queue + [s[1]]) == ([], q);
    assert PopOperators(t, s, st.queue) == ([], q);
    assert q == st.queue + [s[1], s[0]];
    assert [] + [t] == [t];
  }

  /** A `(` is pushed onto the stack. */
  lemma StepLeftParen(st: State, t: Token)
    requires t.kind == LeftParen
    ensures Step(st, t) == Ok(st.(stack := st.stack + [t]))
  {
  }

  /** A `)` meeting an empty stack is reported as unmatched. */
  lemma StepCloseParenEmpty(st: State, t: Token)
    requires t.kind == RightParen && st.stack == []
    ensures Step(st, t) == Err(UnmatchedRightParen(t))
  {
  }

  /** Once a number has been output, numbers, points, operators and `(`
      never stop the loop, and the queue stays non-empty: only a `)` or an
      unknown token can fail. */
  lemma {:induction false} RunWithoutCloseParen(st: State, ts: seq<Token>)
    requires st.queue != []
    requires forall k :: 0 <= k < |ts| ==> ts[k].kind in {Number, Dot, Operator, LeftParen}
    ensures Run(st, ts).Ok? && Run(st, ts).value.queue != []
    decreases |ts|
  {
    if ts != [] {
      var next := Step(st, ts[0]);
      assert next.Ok? && next.value.queue != [];
      RunWithoutCloseParen(next.value, ts[1..]);
    }
  }

  /** The loop stops at an unknown token with that token's error, whatever
      follows it. */
  lemma RunStopsAtUnknown(st: State, ts: seq<Token>, t: Token, rest: seq<Token>)
    requires Run(st, ts).Ok? && t.kind == Unknown
    ensures Run(st, ts + [t] + rest) == Err(UnknownToken(t))
  {
    RunAppend(st, ts, [t]);
    RunAppend(st, ts + [t], rest);
  }

  /** Five successful steps in a row are a successful run. */
  lemma RunFive(s0: State, t0: Token, s1: State, t1: Token, s2: State, t2: Token,
                s3: State, t3: Token, s4: State, t4: Token, s5: State)
    requires Step(s0, t0) == Ok(s1) && Step(s1, t1) == Ok(s2) && Step(s2, t2) == Ok(s3)
    requires Step(s3, t3) == Ok(s4) && Step(s4, t4) == Ok(s5)
    ensures Run(s0, [t0, t1, t2, t3, t4]) == Ok(s5)
  {
    RunCons(s4, t4, []);
    assert [t4] + [] == [t4];
    RunCons(s3, t3, [t4]);
    assert [t3] + [t4] == [t3, t4];
    RunCons(s2, t2, [t3, t4]);
    assert [t2] + [t3, t4] == [t2, t3, t4];
    RunCons(s1, t1, [t2, t3, t4]);
    assert [t1] + [t2, t3, t4] == [t1, t2, t3, t4];
    RunCons(s0, t0, [t1, t2, t3, t4]);
    assert [t0] + [t1, t2, t3, t4] == [t0, t1, t2, t3, t4];
  }

  /** Three successful steps in a row are a successful run. */
  lemma RunThree(s0: State, t0: Token, s1: State, t1: Token, s2: State, t2: Token, s3: State)
    requires Step(s0, t0) == Ok(s1) && Step(s1, t1) == Ok(s2) && Step(s2, t2) == Ok(s3)
    ensures Run(s0, [t0, t1, t2]) == Ok(s3)
  {
    RunCons(s2, t2, []);
    assert [t2] + [] == [t2];
    RunCons(s1, t1, [t2]);
    assert [t1] + [t2] == [t1, t2];
    RunCons(s0, t0, [t1, t2]);
    assert [t0] + [t1, t2] == [t0, t1, t2];
  }

  /** Four successful steps in a row are a successful run. */
  lemma RunFour(s0: State, t0: Token, s1: State, t1: Token, s2: State, t2: Token,
                s3: State, t3: Token, s4: State)
    requires Step(s0, t0) == Ok(s1) && Step(s1, t1) == Ok(s2) && Step(s2, t2) == Ok(s3)
    requires Step(s3, t3) == Ok(s4)
    ensures Run(s0, [t0, t1, t2, t3]) == Ok(s4)
  {
    RunThree(s1, t1, s2, t2, s3, t3, s4);
    RunCons(s0, t0, [t1, t2, t3]);
    assert [t0] + [t1, t2, t3] == [t0, t1, t2, t3];
  }

  /** Two successful steps in a row are a successful run. */
  lemma RunTwo(s0: State, t0: Token, s1: State, t1: Token, s2: State)
    requires Step(s0, t0) == Ok(s1) && Step(s1, t1) == Ok(s2)
    ensures Run(s0, [t0, t1]) == Ok(s2)
  {
    RunCons(s1, t1, []);
    assert [t1] + [] == [t1];
    RunCons(s0, t0, [t1]);
    assert [t0] + [t1] == [t0, t1];
  }

  /** A run of three tokens followed by a run of two is a run of five. */
  lemma RunThreeThenTwo(s0: State, t0: Token, t1: Token, t2: Token, s3: State, t3: Token, t4: Token, s5: State)
    requires Run(s0, [t0, t1, t2]) == Ok(s3) && Run(s3, [t3, t4]) == Ok(s5)
    ensures Run(s0, [t0, t1, t2, t3, t4]) == Ok(s5)
  {
    RunAppend(s0, [t0, t1, t2], [t3, t4]);
    assert [t0, t1, t2] + [t3, t4] == [t0, t1, t2, t3, t4];
  }

  /** A successful run ends in the flush of what it left. */
  lemma ConvertOfRun(ts: seq<Token>, st: State)
    requires Run(Start, ts) == Ok(st)
    ensures Convert(ts) == Flush(st.stack, st.queue)
  {
  }

  /** Flushing a one-entry stack with no `(` outputs that entry. */
  lemma FlushOne(t: Token, queue: seq<Token>)
    requires t.kind != LeftParen
    ensures Flush([t], queue) == Ok(queue + [t])
  {
    assert Reversed([t]) == [t];
  }

  /** Flushing a three-entry stack with no `(` outputs it top first. */
  lemma FlushThree(t0: Token, t1: Token, t2: Token, queue: seq<Token>)
    requires t0.kind != LeftParen && t1.kind != LeftParen && t2.kind != LeftParen
    ensures Flush([t0, t1, t2], queue) == Ok(queue + [t2, t1, t0])
  {
    var r := Reversed([t0, t1, t2]);
    assert r[0] == t2 && r[1] == t1 && r[2] == t0;
    assert r == [t2, t1, t0];
  }

  /** Flushing a four-entry stack with no `(` outputs it top first. */
  lemma FlushFour(t0: Token, t1: Token, t2: Token, t3: Token, queue: seq<Token>)
    requires t0.kind != LeftParen && t1.kind != LeftParen && t2.kind != LeftParen && t3.kind != LeftParen
    ensures Flush([t0, t1, t2, t3], queue) == Ok(queue + [t3, t2, t1, t0])
  {
    var r := Reversed([t0, t1, t2, t3]);
    assert r[0] == t3 && r[1] == t2 && r[2] == t1 && r[3] == t0;
    assert r == [t3, t2, t1, t0];
  }

  /** The loop over `x a y b z`: the second operator pops the first exactly
      when the operator rule says so. */
  lemma RunTwoOperators(x: Token, a: Token, y: Token, b: Token, z: Token)
    requires x.kind == Number && y.kind == Number && z.kind == Number
    requires a.kind == Operator && b.kind == Operator
    ensures Run(Start, [x, a, y, b, z])
            == Ok(if Pops(b, a) then State([x, y, a] + [z], [b], false) else State([x, y] + [z], [a, b], false))
  {
    var s1 := State([x], [], false);
    var s2 := State([x], [a], true);
    var s3 := State([x, y], [a], false);
    var s4 := if Pops(b, a) then State([x, y, a], [b], true) else State([x, y], [a, b], true);
    var s5 := State(s4.queue + [z], s4.stack, false);
    assert Step(Start, x) == Ok(s1) by {
      StepNumberFirst(Start, x);
    }
    assert Step(s1, a) == Ok(s2) by {
      StepOperatorShort(s1, a);
    }
    assert Step(s2, y) == Ok(s3) by {
      StepNumberApart(s2, y);
      assert [x] + [y] == [x, y];
    }
    assert Step(s3, b) == Ok(s4) by {
      StepOperatorShort(s3, b);
      assert [x, y] + [a] == [x, y, a];
      assert [a] + [b] == [a, b];
    }
    assert Step(s4, z) == Ok(s5) by {
      StepNumberApart(s4, z);
    }
    RunFive(Start, x, s1, a, s2, y, s3, b, s4, z, s5);
  }

  /** Two operators between three numbers: the tighter-binding (or, for a
      right-associative second operator, the earlier) operator comes out
      first. */
  lemma ConvertTwoOperators(x: Token, a: Token, y: Token, b: Token, z: Token)
    requires x.kind == Number && y.kind == Number && z.kind == Number
    requires a.kind == Operator && b.kind == Operator
    ensures Convert([x, a, y, b, z]) == Ok(if Pops(b, a) then [x, y, a, z, b] else [x, y, z, b, a])
  {
    RunTwoOperators(x, a, y, b, z);
    if Pops(b, a) {
      assert Flush([b], [x, y, a] + [z]) == Ok([x, y, a, z, b]) by {
        assert Reversed([b]) == [b];
        assert [x, y, a] + [z] + [b] == [x, y, a, z, b];
      }
    } else {
      assert Flush([a, b], [x, y] + [z]) == Ok([x, y, z, b, a]) by {
        assert Reversed([a, b]) == [b, a];
        assert [x, y] + [z] + [b, a] == [x, y, z, b, a];
      }
    }
  }

  /** A number, a point and a number: one number. */
  lemma ConvertDecimal(x: Token, d: Token, y: Token)
    requires x.kind == Number && d.kind == Dot && y.kind == Number && d.str == "."
    ensures Convert([x, d, y]) == Ok([x.(str := x.str + "." + y.str)])
  {
    var x' := x.(str := x.str + ".");
    var xy := x.(str := x.str + "." + y.str);
    var s1 := State([x], [], false);
    var s2 := State([x'], [], false);
    var s3 := State([xy], [], false);
    assert Step(Start, x) == Ok(s1) by {
      StepNumberFirst(Start, x);
    }
    assert Step(s1, d) == Ok(s2) by {
      StepDot(s1, d);
      assert DropLast([x]) == [];
      assert [] + [x'] == [x'];
    }
    assert Step(s2, y) == Ok(s3) by {
      assert x'.str[|x.str|] == '.';
      StepNumberGlued(s2, y);
      assert DropLast([x']) == [];
      assert [] + [xy] == [xy];
    }
    RunThree(Start, x, s1, d, s2, y, s3);
    ConvertOfRun([x, d, y], s3);
    assert Flush([], [xy]) == Ok([xy]);
  }

  /** An operator, then a number with a point and a fraction: the fraction
      is glued onto the second number. */
  lemma ConvertDecimalAfterOperator(x: Token, a: Token, y: Token, d: Token, z: Token)
    requires x.kind == Number && y.kind == Number && z.kind == Number
    requires a.kind == Operator && d.kind == Dot && d.str == "."
    ensures Convert([x, a, y, d, z]) == Ok([x, y.(str := y.str + "." + z.str), a])
  {
    var y' := y.(str := y.str + ".");
    var yz := y.(str := y.str + "." + z.str);
    var s1 := State([x], [], false);
    var s2 := State([x], [a], true);
    var s3 := State([x, y], [a], false);
    var s4 := State([x, y'], [a], false);
    var s5 := State([x, yz], [a], false);
    StepNumberFirst(Start, x);
    StepOperatorShort(s1, a);
    StepNumberApart(s2, y);
    assert [x] + [y] == [x, y];
    StepDot(s3, d);
    assert DropLast([x, y]) == [x];
    assert [x] + [y'] == [x, y'];
    assert y'.str[|y.str|] == '.';
    StepNumberGlued(s4, z);
    assert DropLast([x, y']) == [x];
    assert [x] + [yz] == [x, yz];
    RunFive(Start, x, s1, a, s2, y, s3, d, s4, z, s5);
    assert Reversed([a]) == [a];
    assert [x, yz] + [a] == [x, yz, a];
  }

  /** A number with a point and a fraction, an operator, a number: the
      operator raised the flag, so the last number stays apart. */
  lemma ConvertOperatorEndsDecimal(x: Token, d: Token, y: Token, a: Token, z: Token)
    requires x.kind == Number && y.kind == Number && z.kind == Number
    requires a.kind == Operator && d.kind == Dot && d.str == "."
    ensures Convert([x, d, y, a, z]) == Ok([x.(str := x.str + "." + y.str), z, a])
  {
    var x' := x.(str := x.str + ".");
    var xy := x.(str := x.str + "." + y.str);
    var s1 := State([x], [], false);
    var s2 := State([x'], [], false);
    var s3 := State([xy], [], false);
    var s4 := State([xy], [a], true);
    var s5 := State([xy, z], [a], false);
    StepNumberFirst(Start, x);
    StepDot(s1, d);
    assert DropLast([x]) == [];
    assert [] + [x'] == [x'];
    assert x'.str[|x.str|] == '.';
    StepNumberGlued(s2, y);
    assert [] + [xy] == [xy];
    StepOperatorShort(s3, a);
    StepNumberApart(s4, z);
    assert [xy] + [z] == [xy, z];
    RunFive(Start, x, s1, d, s2, y, s3, a, s4, z, s5);
    assert Reversed([a]) == [a];
    assert [xy, z] + [a] == [xy, z, a];
  }

  /** A leading operator, then a number with a point and a fraction: the
      flag is still raised when the fraction arrives, so it is not glued. */
  lemma ConvertLeadingOperator(a: Token, x: Token, d: Token, y: Token)
    requires x.kind == Number && y.kind == Number
    requires a.kind == Operator && d.kind == Dot && d.str == "."
    ensures Convert([a, x, d, y]) == Ok([x.(str := x.str + "."), y, a])
  {
    var x' := x.(str := x.str + ".");
    var s1 := State([], [a], true);
    var s2 := State([x], [a], true);
    var s3 := State([x'], [a], true);
    var s4 := State([x', y], [a], false);
    assert Step(Start, a) == Ok(s1) by {
      StepOperatorShort(Start, a);
    }
    assert Step(s1, x) == Ok(s2) by {
      StepNumberFirst(s1, x);
    }
    assert Step(s2, d) == Ok(s3) by {
      StepDot(s2, d);
      assert DropLast([x]) == [];
      assert [] + [x'] == [x'];
    }
    assert Step(s3, y) == Ok(s4) by {
      StepNumberApart(s3, y);
      assert [x'] + [y] == [x', y];
    }
    RunFour(Start, a, s1, x, s2, d, s3, y, s4);
    ConvertOfRun([a, x, d, y], s4);
    assert Flush([a], [x', y]) == Ok([x', y, a]) by {
      assert Reversed([a]) == [a];
      assert [x', y] + [a] == [x', y, a];
    }
  }

  /** Gluing works on whatever token is last in the queue, not only on a
      number: in `( x a y ) . z` the `)` moves the operator `a` to the queue,
      and the point and the digits after it are appended to `a`'s text. */
  lemma ConvertDotAfterCloseParen(lp: Token, x: Token, a: Token, y: Token, rp: Token, d: Token, z: Token)
    requires lp.kind == LeftParen && rp.kind == RightParen && a.kind == Operator && !Pops(a, lp)
    requires x.kind == Number && y.kind == Number && z.kind == Number
    requires d.kind == Dot && d.str == "."
    ensures Convert([lp, x, a, y, rp, d, z]) == Ok([x, y, a.(str := a.str + "." + z.str)])
  {
    var a'' := a.(str := a.str + "." + z.str);
    RunParenGroup(lp, x, a, y, rp);
    RunGlueOntoLast([x, y], a, d, z);
    RunAppend(Start, [lp, x, a, y, rp], [d, z]);
    assert [lp, x, a, y, rp] + [d, z] == [lp, x, a, y, rp, d, z];
    ConvertOfRun([lp, x, a, y, rp, d, z], State([x, y] + [a''], [], false));
    assert [x, y] + [a''] + Reversed([]) == [x, y, a''];
  }

  /** `( x a y )`: the `)` moves `a` to the queue and drops the `(`. */
  lemma RunParenGroup(lp: Token, x: Token, a: Token, y: Token, rp: Token)
    requires lp.kind == LeftParen && rp.kind == RightParen && a.kind == Operator && !Pops(a, lp)
    requires x.kind == Number && y.kind == Number
    ensures Run(Start, [lp, x, a, y, rp]) == Ok(State([x, y] + [a], [], false))
  {
    var s1 := State([], [lp], false);
    var s2 := State([x], [lp], false);
    var s3 := State([x], [lp, a], true);
    var s4 := State([x, y], [lp, a], false);
    var s5 := State([x, y] + [a], [], false);
    assert Step(Start, lp) == Ok(s1) by {
      StepLeftParen(Start, lp);
      assert [] + [lp] == [lp];
    }
    assert Step(s1, x) == Ok(s2) by {
      StepNumberFirst(s1, x);
    }
    assert Step(s2, a) == Ok(s3) by {
      assert Last([lp]) == lp;
      StepOperatorPush(s2, a);
      assert [lp] + [a] == [lp, a];
    }
    assert Step(s3, y) == Ok(s4) by {
      StepNumberApart(s3, y);
      assert [x] + [y] == [x, y];
    }
    assert Step(s4, rp) == Ok(s5) by {
      assert Last([lp, a]) == a && DropLast([lp, a]) == [lp];
      assert DropLast([lp]) == [];
    }
    RunFive(Start, lp, s1, x, s2, a, s3, y, s4, rp, s5);
  }

  /** `. z` after a token `t` at the back of the queue, with the flag down:
      the point and then the digits are appended to `t`'s text. */
  lemma RunGlueOntoLast(q: seq<Token>, t: Token, d: Token, z: Token)
    requires d.kind == Dot && d.str == "." && z.kind == Number
    ensures Run(State(q + [t], [], false), [d, z]) == Ok(State(q + [t.(str := t.str + "." + z.str)], [], false))
  {
    var t' := t.(str := t.str + ".");
    var s0 := State(q + [t], [], false);
    var s1 := State(q + [t'], [], false);
    var s2 := State(q + [t.(str := t.str + "." + z.str)], [], false);
    assert Last(q + [t]) == t && DropLast(q + [t]) == q;
    assert Step(s0, d) == Ok(s1) by {
      StepDot(s0, d);
    }
    assert Step(s1, z) == Ok(s2) by {
      assert Last(q + [t']) == t' && DropLast(q + [t']) == q;
      assert '.' in t'.str by {
        assert t'.str[|t.str|] == '.';
      }
      StepNumberGlued(s1, z);
      assert t'.str + z.str == t.str + "." + z.str;
    }
    RunTwo(s0, d, s1, z, s2);
  }
}
