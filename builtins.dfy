/**
 * The handful of Python built-ins the game's rules rely on: `str.lower`,
 * `pattern in text` on strings, `str.startswith` and `list.remove`.
 */
module Builtins {

  /** `c.lower()` on one character; only the ASCII letters are folded. */
  function LowerChar(c: char): char {
    if 'A' <= c <= 'Z' then (c as int - 'A' as int + 'a' as int) as char else c
  }

  /** `s.lower()`: each character folded, nothing else touched. */
  function Lower(s: string): (r: string)
    ensures |r| == |s|
    ensures forall i :: 0 <= i < |s| ==> r[i] == LowerChar(s[i])
    ensures forall i :: 0 <= i < |r| ==> !('A' <= r[i] <= 'Z')
  {
    seq(|s|, i requires 0 <= i < |s| => LowerChar(s[i]))
  }

  /** `text.startswith(prefix)`. */
  predicate StartsWith(text: string, prefix: string) {
    |prefix| <= |text| && text[..|prefix|] == prefix
  }

  /** A text starts with a prefix exactly when it is that prefix followed by something. */
  lemma StartsWithConcat(text: string, prefix: string)
    ensures StartsWith(text, prefix) <==> exists rest :: prefix + rest == text
  {
    if StartsWith(text, prefix) {
      assert prefix + text[|prefix|..] == text;
    }
    forall rest | prefix + rest == text
      ensures StartsWith(text, prefix)
    {
      assert text[..|prefix|] == prefix;
    }
  }

  /** Lower-casing twice is lower-casing once, and characters that are not capitals are kept. */
  lemma LowerFixes(s: string)
    ensures Lower(Lower(s)) == Lower(s)
    ensures forall i :: 0 <= i < |s| && !('A' <= s[i] <= 'Z') ==> Lower(s)[i] == s[i]
  {
  }

  /** `pattern` is the block of `text` that starts at offset `i`. */
  predicate OccursAt(pattern: string, text: string, i: int) {
    0 <= i <= |text| - |pattern| && text[i..i + |pattern|] == pattern
  }

  /** `pattern` occurs in `text` as a contiguous block, at some offset. */
  ghost predicate Occurs(pattern: string, text: string) {
    exists i :: OccursAt(pattern, text, i)
  }

  /** `pattern in text` on strings, scanning the offsets left to right. */
  function Contains(text: string, pattern: string): bool
    decreases |text|
  {
    if |text| < |pattern| then false
    else if StartsWith(text, pattern) then true
    else Contains(text[1..], pattern)
  }

  /** The scan finds a match exactly when one exists. */
  lemma {:induction false} ContainsOccurs(text: string, pattern: string)
    ensures Contains(text, pattern) <==> Occurs(pattern, text)
    decreases |text|
  {
    if |text| < |pattern| {
    } else if StartsWith(text, pattern) {
      assert OccursAt(pattern, text, 0);
    } else {
      ContainsOccurs(text[1..], pattern);
      if Occurs(pattern, text) {
        var i :| OccursAt(pattern, text, i);
        assert i != 0 by {
          assert text[0..0 + |pattern|] == text[..|pattern|];
        }
        assert text[1..][i - 1..i - 1 + |pattern|] == text[i..i + |pattern|];
        assert OccursAt(pattern, text[1..], i - 1);
      }
      if Occurs(pattern, text[1..]) {
        var j :| OccursAt(pattern, text[1..], j);
        assert text[j + 1..j + 1 + |pattern|] == text[1..][j..j + |pattern|];
        assert OccursAt(pattern, text, j + 1);
      }
    }
  }

  /**
   * `xs.remove(x)`: drops the first occurrence of `x`. Python raises
   * ValueError when `x` is absent, so callers must know it is there.
   */
  function RemoveFirst(xs: seq<string>, x: string): (r: seq<string>)
    requires x in xs
    ensures |r| == |xs| - 1
    ensures multiset(r) == multiset(xs) - multiset{x}
  {
    if xs[0] == x then
      assert xs == [xs[0]] + xs[1..];
      xs[1..]
    else
      assert xs == [xs[0]] + xs[1..];
      [xs[0]] + RemoveFirst(xs[1..], x)
  }

  /** The element removed is the first occurrence: everything before it stays, in order. */
  lemma {:induction false} RemoveFirstAt(xs: seq<string>, x: string, i: nat)
    requires i < |xs| && xs[i] == x && x !in xs[..i]
    ensures RemoveFirst(xs, x) == xs[..i] + xs[i + 1..]
  {
    if i > 0 {
      var rest := xs[1..];
      ShiftedPrefix(xs, i);
      assert xs[0] != x;
      RemoveFirstAt(rest, x, i - 1);
    }
  }

  /** Taking the head off `xs` shifts prefixes and suffixes by one. */
  lemma ShiftedPrefix(xs: seq<string>, i: nat)
    requires 0 < i < |xs|
    ensures xs[0] in xs[..i]
    ensures xs[1..][..i - 1] == xs[1..i] && multiset(xs[1..i]) <= multiset(xs[..i])
    ensures xs[1..][i - 1 + 1..] == xs[i + 1..]
    ensures [xs[0]] + (xs[1..i] + xs[i + 1..]) == xs[..i] + xs[i + 1..]
  {
    assert xs[..i] == [xs[0]] + xs[1..i];
  }
}
