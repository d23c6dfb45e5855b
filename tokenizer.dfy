/** The tokeniser: one left-to-right pass over the characters of the
    expression, up to its terminating NUL. */
module Tokenizer {
  import opened Tokens

  /** What `c_str()` exposes of the string: everything before the first NUL. */
  function CStr(s: string): (r: string)
    ensures |r| <= |s| && r == s[..|r|] && '\0' !in r
    ensures '\0' !in s ==> r == s
    ensures |r| < |s| ==> s[|r|] == '\0'
  {
    if s == [] || s[0] == '\0' then []
    else
      assert s == [s[0]] + s[1..];
      [s[0]] + CStr(s[1..])
  }

  /** The length of the maximal run of digits at the front of `s`. */
  function DigitRun(s: string): (n: nat)
    ensures n <= |s| && IsDigits(s[..n])
    ensures n == |s| || !IsDigit(s[n])
  {
    if s == [] || !IsDigit(s[0]) then 0 else 1 + DigitRun(s[1..])
  }

  /** The token sequence the scan produces: a maximal digit run becomes one
      `Number` token; every other character becomes the one-character token
      of the classification table; scanning stops at a NUL. */
  function Tokenize(s: string): seq<Token>
    decreases |s|
  {
    if s == [] || s[0] == '\0' then []
    else if IsDigit(s[0]) then
      var n := DigitRun(s);
      [NumberToken(s[..n])] + Tokenize(s[n..])
    else
      [Classify(s[0])] + Tokenize(s[1..])
  }

  /** The texts of the tokens, concatenated in order. */
  function Flatten(ts: seq<Token>): string {
    if ts == [] then [] else ts[0].str + Flatten(ts[1..])
  }

  /** A run of digits that stops at a non-digit (or at the end) is the
      maximal run. */
  lemma {:induction false} DigitRunIs(s: string, n: nat)
    requires n <= |s| && IsDigits(s[..n])
    requires n == |s| || !IsDigit(s[n])
    ensures DigitRun(s) == n
    decreases n
  {
    if n > 0 {
      assert s[0] == s[..n][0];
      assert s[1..][..n - 1] == s[..n][1..];
      assert n == |s| || s[1..][n - 1] == s[n];
      DigitRunIs(s[1..], n - 1);
    }
  }

  /** One step of the scan at a digit: the run of `n` digits is one token. */
  lemma TokenizeNumberHead(s: string, n: nat)
    requires 0 < n <= |s| && IsDigits(s[..n])
    requires n == |s| || !IsDigit(s[n])
    ensures Tokenize(s) == [NumberToken(s[..n])] + Tokenize(s[n..])
  {
    DigitRunIs(s, n);
    assert s[..n][0] == s[0];
  }

  /** One step of the scan at any other character. */
  lemma TokenizeOtherHead(s: string)
    requires s != [] && s[0] != '\0' && !IsDigit(s[0])
    ensures Tokenize(s) == [Classify(s[0])] + Tokenize(s[1..])
  {
  }

  /** A numeral followed by anything that does not start with a digit. */
  lemma TokenizeNumeralThen(d: string, rest: string)
    requires |d| > 0 && IsDigits(d)
    requires rest == [] || !IsDigit(rest[0])
    ensures Tokenize(d + rest) == [NumberToken(d)] + Tokenize(rest)
  {
    assert (d + rest)[..|d|] == d;
    assert (d + rest)[|d|..] == rest;
    TokenizeNumberHead(d + rest, |d|);
  }

  /** A non-digit character followed by anything. */
  lemma TokenizeCharThen(c: char, rest: string)
    requires !IsDigit(c) && c != '\0'
    ensures Tokenize([c] + rest) == [Classify(c)] + Tokenize(rest)
  {
    assert ([c] + rest)[1..] == rest;
    TokenizeOtherHead([c] + rest);
  }

  /** The scan splits where a non-digit meets the next piece: two strings
      that do not join two digits tokenise apart (the first holding no NUL). */
  lemma {:induction false} TokenizeAppend(x: string, y: string)
    requires '\0' !in x
    requires x == [] || y == [] || !IsDigit(x[|x| - 1]) || !IsDigit(y[0])
    ensures Tokenize(x + y) == Tokenize(x) + Tokenize(y)
    decreases |x|
  {
    if x == [] {
      assert x + y == y;
    } else {
      var t, n := HeadSplits(x, y);
      TokenizeAppend(x[n..], y);
      Reassociate([t], Tokenize(x[n..]), Tokenize(y));
    }
  }

  /** One step of the scan on `x + y`: the head token `t` of `x`, which
      spans its first `n` characters, comes first, and what remains of `x`
      is followed by `y`. */
  lemma HeadSplits(x: string, y: string) returns (t: Token, n: nat)
    requires x != [] && '\0' !in x
    requires y == [] || !IsDigit(x[|x| - 1]) || !IsDigit(y[0])
    ensures 1 <= n <= |x| && '\0' !in x[n..]
    ensures x[n..] == [] || y == [] || !IsDigit(x[n..][|x[n..]| - 1]) || !IsDigit(y[0])
    ensures Tokenize(x) == [t] + Tokenize(x[n..])
    ensures Tokenize(x + y) == [t] + Tokenize(x[n..] + y)
  {
    n := if IsDigit(x[0]) then DigitRun(x) else 1;
    assert (x + y)[n..] == x[n..] + y;
    assert x[n..] == [] || x[n..][|x[n..]| - 1] == x[|x| - 1];
    assert forall k :: 0 <= k < |x[n..]| ==> x[n..][k] == x[n + k];
    if IsDigit(x[0]) {
      t := NumberToken(x[..n]);
      assert (x + y)[..n] == x[..n];
      if n < |x| {
        assert (x + y)[n] == x[n];
      }
      TokenizeNumberHead(x + y, n);
      TokenizeNumberHead(x, n);
    } else {
      t := Classify(x[0]);
      TokenizeOtherHead(x + y);
      TokenizeOtherHead(x);
    }
  }

  /** Concatenation is associative; stated once, for tokens and characters
      alike, to keep the solver from searching for it. */
  lemma Reassociate<T>(a: seq<T>, b: seq<T>, c: seq<T>)
    ensures a + (b + c) == (a + b) + c
  {
  }

  /** `ExprToTokens`: the pointer walks the C string; at a digit an inner
      loop advances over the whole run and pushes one `Number` token, any other
      character is pushed through the table. */
  method ExprToTokens(expr: string) returns (tokens: seq<Token>)
    ensures tokens == Tokenize(expr)
  {
    tokens := [];
    var p := 0;
    while p < |expr| && expr[p] != '\0'
      invariant 0 <= p <= |expr|
      invariant tokens + Tokenize(expr[p..]) == Tokenize(expr)
    {
      if IsDigit(expr[p]) {
        var b := p;
        while p < |expr| && IsDigit(expr[p])
          invariant b < p <= |expr| || (b == p < |expr| && IsDigit(expr[p]))
          invariant forall k :: b <= k < p ==> IsDigit(expr[k])
        {
          p := p + 1;
        }
        TokenizeAtNumber(expr, b, p);
        Reassociate(tokens, [NumberToken(expr[b..p])], Tokenize(expr[p..]));
        tokens := tokens + [NumberToken(expr[b..p])];
      } else {
        TokenizeAtOther(expr, p);
        Reassociate(tokens, [Classify(expr[p])], Tokenize(expr[p + 1..]));
        tokens := tokens + [Classify(expr[p])];
        p := p + 1;
      }
    }
  }

  /** The scan at a digit run `s[b..e]` of the suffix starting at `b`. */
  lemma TokenizeAtNumber(s: string, b: nat, e: nat)
    requires b < e <= |s| && (forall k :: b <= k < e ==> IsDigit(s[k]))
    requires e == |s| || !IsDigit(s[e])
    ensures Tokenize(s[b..]) == [NumberToken(s[b..e])] + Tokenize(s[e..])
  {
    var rest := s[b..];
    assert rest[..e - b] == s[b..e];
    assert rest[e - b..] == s[e..];
    TokenizeNumberHead(rest, e - b);
  }

  /** The scan at any other character of the suffix starting at `p`. */
  lemma TokenizeAtOther(s: string, p: nat)
    requires p < |s| && s[p] != '\0' && !IsDigit(s[p])
    ensures Tokenize(s[p..]) == [Classify(s[p])] + Tokenize(s[p + 1..])
  {
    assert s[p..][1..] == s[p + 1..];
    TokenizeOtherHead(s[p..]);
  }

  /** Tokenising partitions the string: the token texts, concatenated in
      order, give back the string up to its first NUL (all of it when it holds
      none). */
  lemma {:induction false} TokenizePartitions(s: string)
    ensures Flatten(Tokenize(s)) == CStr(s)
    decreases |s|
  {
    if s == [] || s[0] == '\0' {
    } else if IsDigit(s[0]) {
      var n := DigitRun(s);
      var ts := Tokenize(s[n..]);
      assert ([NumberToken(s[..n])] + ts)[1..] == ts;
      TokenizePartitions(s[n..]);
      CStrDigits(s, n);
    } else {
      var ts := Tokenize(s[1..]);
      assert ([Classify(s[0])] + ts)[1..] == ts;
      TokenizePartitions(s[1..]);
    }
  }

  lemma {:induction false} CStrDigits(s: string, n: nat)
    requires n <= |s| && IsDigits(s[..n])
    ensures CStr(s) == s[..n] + CStr(s[n..])
    decreases n
  {
    if n > 0 {
      assert s[..n][0] == s[0];
      assert CStr(s) == [s[0]] + CStr(s[1..]);
      assert IsDigits(s[1..][..n - 1]) by {
        assert s[1..][..n - 1] == s[..n][1..];
      }
      CStrDigits(s[1..], n - 1);
      assert s[1..][n - 1..] == s[n..];
      assert s[..n] == [s[0]] + s[1..][..n - 1];
      Reassociate([s[0]], s[1..][..n - 1], CStr(s[n..]));
    } else {
      assert s[..0] + CStr(s[0..]) == CStr(s);
    }
  }

  /** A character that neither closes a group nor falls outside the table. */
  predicate IsOpenChar(c: char) {
    IsDigit(c) || IsOperatorChar(c) || c == '.' || c == '('
  }

  /** A string of digits, points, operators and `(` scans to numbers,
      points, operators and `(` only. */
  lemma {:induction false} TokenizeOpenKinds(s: string)
    requires forall k :: 0 <= k < |s| ==> IsOpenChar(s[k])
    ensures forall k :: 0 <= k < |Tokenize(s)| ==> Tokenize(s)[k].kind in {Number, Dot, Operator, LeftParen}
    decreases |s|
  {
    if s == [] || s[0] == '\0' {
    } else if IsDigit(s[0]) {
      var n := DigitRun(s);
      TokenizeOpenKinds(s[n..]);
    } else {
      TokenizeOpenKinds(s[1..]);
    }
  }

  /** The shape of the token sequence: every `Number` token is a non-empty
      run of digits; every other token is the table's one-character token for
      a non-digit; two `Number` tokens are never adjacent (each run is
      maximal); and every token is exactly as the table builds it. */
  lemma {:induction false} TokenizeShape(s: string)
    ensures forall k :: 0 <= k < |Tokenize(s)| && Tokenize(s)[k].kind == Number ==>
              |Tokenize(s)[k].str| > 0 && IsDigits(Tokenize(s)[k].str)
    ensures forall k :: 0 <= k < |Tokenize(s)| && Tokenize(s)[k].kind != Number ==>
              |Tokenize(s)[k].str| == 1 && !IsDigit(Tokenize(s)[k].str[0])
              && Tokenize(s)[k] == Classify(Tokenize(s)[k].str[0])
    ensures forall k :: 0 <= k < |Tokenize(s)| - 1 ==>
              !(Tokenize(s)[k].kind == Number && Tokenize(s)[k + 1].kind == Number)
    ensures forall k :: 0 <= k < |Tokenize(s)| ==> TableToken(Tokenize(s)[k])
    ensures Tokenize(s) != [] && Tokenize(s)[0].kind == Number ==> IsDigit(s[0])
    decreases |s|
  {
    if s == [] || s[0] == '\0' {
    } else if IsDigit(s[0]) {
      var n := DigitRun(s);
      TokenizeShape(s[n..]);
      assert n == |s| || !IsDigit(s[n..][0]);
    } else {
      TokenizeShape(s[1..]);
    }
  }
}
