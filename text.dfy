/**
 * String helpers shared by the demos: lower-casing, substring search
 * (Python's `in` on strings), decimal rendering of naturals (Python's
 * f-string `{i}`) and single-character replacement.
 */
module Text {

  /** Lower-cases one character; only the ASCII letters A-Z change. */
  function LowerChar(c: char): char
  {
    if 'A' <= c <= 'Z' then (c as int + 32) as char else c
  }

  /** Python's `str.lower()`, restricted to ASCII letters. */
  function Lower(s: string): (r: string)
    ensures |r| == |s|
    ensures forall i :: 0 <= i < |s| ==> r[i] == LowerChar(s[i])
    ensures forall i :: 0 <= i < |r| ==> !('A' <= r[i] <= 'Z')
  {
    seq(|s|, i requires 0 <= i < |s| => LowerChar(s[i]))
  }

  /** Python's `w in s` for strings: `w` occurs as a contiguous block of `s`. */
  predicate Contains(s: string, w: string)
    decreases |s|
  {
    |w| <= |s| && (s[..|w|] == w || (0 < |s| && Contains(s[1..], w)))
  }

  /** Every string contains each of its contiguous blocks. */
  lemma {:induction false} ContainsMiddle(pre: string, w: string, post: string)
    ensures Contains(pre + w + post, w)
    decreases |pre|
  {
    var s := pre + w + post;
    if pre == [] {
      assert s[..|w|] == w;
    } else {
      assert s[1..] == pre[1..] + w + post;
      ContainsMiddle(pre[1..], w, post);
    }
  }

  /** Python's `any(word in text for word in words)`. */
  predicate AnyOccurs(words: seq<string>, text: string)
  {
    exists k :: 0 <= k < |words| && Contains(text, words[k])
  }

  /** `any` over two words is the disjunction of the two tests. */
  lemma AnyOfTwo(a: string, b: string, text: string)
    ensures AnyOccurs([a, b], text) <==> Contains(text, a) || Contains(text, b)
  {
    assert [a, b][0] == a && [a, b][1] == b;
  }

  /** Lower-casing distributes over concatenation. */
  lemma LowerAppend(a: string, b: string)
    ensures Lower(a + b) == Lower(a) + Lower(b)
  {
    assert forall i :: 0 <= i < |a + b| ==> Lower(a + b)[i] == (Lower(a) + Lower(b))[i];
  }

  /** The decimal digit for `d`. */
  function DigitChar(d: nat): (c: char)
    requires d < 10
    ensures '0' <= c <= '9' && DigitValue(c) == d
  {
    ('0' as int + d) as char
  }

  /** The value of a decimal digit character. */
  function DigitValue(c: char): nat
    requires '0' <= c <= '9'
  {
    c as int - '0' as int
  }

  /** Whether every character of `s` is a decimal digit. */
  predicate AllDigits(s: string)
  {
    forall i :: 0 <= i < |s| ==> '0' <= s[i] <= '9'
  }

  /** The number a string of decimal digits denotes, most significant digit first. */
  function DigitsValue(s: string): nat
    requires AllDigits(s)
    decreases |s|
  {
    if s == [] then 0
    else
      var init := s[..|s| - 1];
      assert forall i :: 0 <= i < |init| ==> init[i] == s[i];
      DigitsValue(init) * 10 + DigitValue(s[|s| - 1])
  }

  /**
   * Decimal rendering of a natural number, as Python's `str(n)`: digits only,
   * denoting `n`, with no leading zero except for `n == 0` itself.
   */
  function NatToString(n: nat): (r: string)
    ensures 0 < |r|
    ensures AllDigits(r)
    ensures DigitsValue(r) == n
    ensures r[0] == '0' ==> n == 0 && r == "0"
    decreases n
  {
    if n < 10 then [DigitChar(n)]
    else
      var prefix := NatToString(n / 10);
      var r := prefix + [DigitChar(n % 10)];
      assert AllDigits(r) by {
        forall i | 0 <= i < |r| ensures '0' <= r[i] <= '9' {
          if i < |prefix| { assert r[i] == prefix[i]; }
        }
      }
      assert r[..|r| - 1] == prefix;
      r
  }

  /**
   * Python's `s.replace(from, to)` for single characters: every occurrence of
   * `from` becomes `to`, every other character is kept in place, and no `from`
   * remains when the two differ.
   */
  function ReplaceChar(s: string, from: char, to: char): (r: string)
    ensures |r| == |s|
    ensures forall i :: 0 <= i < |s| && s[i] != from ==> r[i] == s[i]
    ensures forall i :: 0 <= i < |s| && s[i] == from ==> r[i] == to
    ensures from != to ==> from !in r
    ensures from !in s ==> r == s
  {
    seq(|s|, i requires 0 <= i < |s| => if s[i] == from then to else s[i])
  }
}
