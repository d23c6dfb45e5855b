/** The normaliser: the expression string is edited in place, first deleting
    every space and then turning every comma into a decimal point. */
module Normalizer {

  /** The input with every `' '` deleted and every other character kept, in
      order. */
  function WithoutSpaces(s: string): (r: string)
    ensures ' ' !in r
    ensures |r| <= |s|
  {
    if s == [] then []
    else
      assert s == [s[0]] + s[1..];
      (if s[0] == ' ' then [] else [s[0]]) + WithoutSpaces(s[1..])
  }

  function Dotted(c: char): char {
    if c == ',' then '.' else c
  }

  /** The input with every `','` replaced by `'.'`, position for position. */
  function CommasToDots(s: string): (r: string)
    ensures |r| == |s| && ',' !in r
    ensures forall k :: 0 <= k < |s| && s[k] == ',' ==> r[k] == '.'
    ensures forall k :: 0 <= k < |s| && s[k] != ',' ==> r[k] == s[k]
  {
    seq(|s|, k requires 0 <= k < |s| => Dotted(s[k]))
  }

  /** `FormatString`: spaces removed first, then commas replaced. */
  function Formatted(s: string): string {
    CommasToDots(WithoutSpaces(s))
  }

  lemma {:induction false} WithoutSpacesAppend(a: string, b: string)
    ensures WithoutSpaces(a + b) == WithoutSpaces(a) + WithoutSpaces(b)
    decreases |a|
  {
    if a == [] {
      assert a + b == b;
    } else {
      var head := if a[0] == ' ' then [] else [a[0]];
      assert (a + b)[0] == a[0] && (a + b)[1..] == a[1..] + b;
      assert WithoutSpaces(a + b) == head + WithoutSpaces(a[1..] + b);
      assert WithoutSpaces(a) == head + WithoutSpaces(a[1..]);
      WithoutSpacesAppend(a[1..], b);
      var x, y := WithoutSpaces(a[1..]), WithoutSpaces(b);
      assert head + (x + y) == (head + x) + y;
    }
  }

  lemma {:induction false} WithoutSpacesKeepsClean(s: string)
    requires ' ' !in s
    ensures WithoutSpaces(s) == s
    decreases |s|
  {
    if s != [] {
      assert s == [s[0]] + s[1..];
      WithoutSpacesKeepsClean(s[1..]);
    }
  }

  lemma {:induction false} WithoutSpacesLength(s: string)
    ensures |WithoutSpaces(s)| == |s| - multiset(s)[' ']
    decreases |s|
  {
    if s != [] {
      assert s == [s[0]] + s[1..];
      assert multiset(s) == multiset([s[0]]) + multiset(s[1..]);
      WithoutSpacesLength(s[1..]);
    }
  }

  /** The result never holds a space or a comma, and is never longer than the
      input: exactly the spaces are gone. */
  lemma FormattedIsClean(s: string)
    ensures ' ' !in Formatted(s) && ',' !in Formatted(s)
    ensures |Formatted(s)| == |s| - multiset(s)[' '] <= |s|
  {
    WithoutSpacesLength(s);
  }

  /** Every comma of the input is a point of the result: the points of the
      result are the input's points and commas together, and every other
      character except the space occurs as often as in the input. */
  lemma {:induction false} FormattedCounts(s: string)
    ensures multiset(Formatted(s))['.'] == multiset(s)['.'] + multiset(s)[',']
    ensures forall c :: c != ' ' && c != ',' && c != '.' ==> multiset(Formatted(s))[c] == multiset(s)[c]
    decreases |s|
  {
    if s != [] {
      assert s == [s[0]] + s[1..];
      FormattedAppend([s[0]], s[1..]);
      FormattedCounts(s[1..]);
      assert WithoutSpaces([s[0]]) == (if s[0] == ' ' then [] else [s[0]]) + WithoutSpaces([]);
      var head := Formatted([s[0]]);
      assert head == if s[0] == ' ' then [] else [Dotted(s[0])];
      assert multiset(Formatted(s)) == multiset(head) + multiset(Formatted(s[1..]));
      assert multiset(s) == multiset([s[0]]) + multiset(s[1..]);
    }
  }

  /** A string that holds no space and no comma is left as it is. */
  lemma FormattedKeepsClean(s: string)
    requires ' ' !in s && ',' !in s
    ensures Formatted(s) == s
  {
    WithoutSpacesKeepsClean(s);
  }

  /** Normalising twice is normalising once. */
  lemma FormattedIdempotent(s: string)
    ensures Formatted(Formatted(s)) == Formatted(s)
  {
    FormattedIsClean(s);
    FormattedKeepsClean(Formatted(s));
  }

  /** The two passes commute: replacing the commas first and deleting the
      spaces after gives the same string. */
  lemma {:induction false} PassesCommute(s: string)
    ensures WithoutSpaces(CommasToDots(s)) == Formatted(s)
    decreases |s|
  {
    if s != [] {
      assert s == [s[0]] + s[1..];
      assert CommasToDots(s) == [Dotted(s[0])] + CommasToDots(s[1..]);
      PassesCommute(s[1..]);
      assert CommasToDots(WithoutSpaces(s)) == CommasToDots(if s[0] == ' ' then [] else [s[0]]) + CommasToDots(WithoutSpaces(s[1..]));
    }
  }

  /** Normalisation works character by character, so it distributes over
      concatenation. */
  lemma FormattedAppend(a: string, b: string)
    ensures Formatted(a + b) == Formatted(a) + Formatted(b)
  {
    WithoutSpacesAppend(a, b);
  }

  /** Whitespace insensitivity: a space anywhere in the input changes
      nothing. */
  lemma FormattedIgnoresSpace(a: string, b: string)
    ensures Formatted(a + [' '] + b) == Formatted(a + b)
  {
    assert WithoutSpaces(a + [' '] + b) == WithoutSpaces(a + b) by {
      WithoutSpacesAppend(a + [' '], b);
      WithoutSpacesAppend(a, [' ']);
      WithoutSpacesAppend(a, b);
      assert WithoutSpaces([' ']) == [];
      assert WithoutSpaces(a) + [] == WithoutSpaces(a);
    }
  }

  /** One more character of the input: a space adds nothing, anything else
      is kept at the end. */
  lemma WithoutSpacesSnoc(s: string, i: nat)
    requires i < |s|
    ensures WithoutSpaces(s[..i + 1]) == WithoutSpaces(s[..i]) + (if s[i] == ' ' then [] else [s[i]])
  {
    assert s[..i + 1] == s[..i] + [s[i]];
    WithoutSpacesAppend(s[..i], [s[i]]);
    assert WithoutSpaces([s[i]]) == (if s[i] == ' ' then [] else [s[i]]) + WithoutSpaces([]);
  }

  /** A `std::string` passed by reference: a character buffer and the length
      in use. Erasing the tail shortens `length`. */
  class Text {
    var chars: array<char>
    var length: nat

    ghost predicate Valid()
      reads this
    {
      length <= chars.Length
    }

    function Contents(): string
      reads this, chars
      requires Valid()
    {
      chars[..length]
    }

    constructor (s: string)
      ensures Valid() && fresh(chars) && Contents() == s
    {
      chars := new char[|s|](k requires 0 <= k < |s| => s[k]);
      length := |s|;
    }
  }

  /** `RemoveSpaces`: `std::remove` compacts the characters that are not
      spaces to the front, keeping their order, and `erase` cuts the string
      at the new end. */
  method RemoveSpaces(s: Text)
    requires s.Valid()
    modifies s, s.chars
    ensures s.Valid() && s.chars == old(s.chars)
    ensures s.Contents() == WithoutSpaces(old(s.Contents()))
  {
    ghost var original := s.chars[..s.length];
    var n := s.length;
    var w := 0;
    var i := 0;
    while i < n
      invariant s.chars == old(s.chars)
      invariant 0 <= w <= i <= n == s.length <= s.chars.Length
      invariant s.chars[..w] == WithoutSpaces(original[..i])
      invariant forall k :: i <= k < n ==> s.chars[k] == original[k]
    {
      WithoutSpacesSnoc(original, i);
      ghost var kept := s.chars[..w];
      if s.chars[i] != ' ' {
        s.chars[w] := s.chars[i];
        assert s.chars[..w + 1] == kept + [original[i]];
        w := w + 1;
      }
      i := i + 1;
    }
    assert original[..n] == original;
    s.length := w;
  }

  /** `ReplaceCommas`: `std::replace` rewrites each `','` to `'.'` in place;
      the length does not change. */
  method ReplaceCommas(s: Text)
    requires s.Valid()
    modifies s.chars
    ensures s.Valid() && s.length == old(s.length)
    ensures s.Contents() == CommasToDots(old(s.Contents()))
  {
    ghost var original := s.chars[..s.length];
    var i := 0;
    while i < s.length
      invariant 0 <= i <= s.length <= s.chars.Length
      invariant forall k :: 0 <= k < i ==> s.chars[k] == Dotted(original[k])
      invariant forall k :: i <= k < s.length ==> s.chars[k] == original[k]
    {
      if s.chars[i] == ',' {
        s.chars[i] := '.';
      }
      i := i + 1;
    }
  }

  /** `FormatString`: the two passes in order. */
  method FormatString(s: Text)
    requires s.Valid()
    modifies s, s.chars
    ensures s.Valid() && s.chars == old(s.chars)
    ensures s.Contents() == Formatted(old(s.Contents()))
  {
    RemoveSpaces(s);
    ReplaceCommas(s);
  }
}
