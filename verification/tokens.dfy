/**
 * The word-shaped regular expressions of the job matchers, over ASCII.
 * A pattern wrapped in `\b ... \b` whose body can only match word
 * characters matches exactly the maximal runs of word characters that the
 * body matches as a whole, so those patterns are filters over `WordRuns`.
 */
module Tokens {
  import opened Text
  import opened Collections
  import opened JdPostprocess
  import opened JdSkills

  predicate IsUpperAscii(c: char) {
    'A' <= c <= 'Z'
  }

  predicate IsLowerAscii(c: char) {
    'a' <= c <= 'z'
  }

  /** Every character is an ASCII letter. */
  predicate AllLetters(s: string) {
    forall i :: 0 <= i < |s| ==> IsAsciiLetter(s[i])
  }

  /** Every character is a word character. */
  predicate AllWordChars(s: string) {
    forall i :: 0 <= i < |s| ==> IsWordChar(s[i])
  }

  /** The maximal runs of word characters (`\w+`), left to right. */
  function WordRuns(s: string): (r: seq<string>)
    ensures forall k :: 0 <= k < |r| ==> r[k] != [] && AllWordChars(r[k])
    decreases |s|
  {
    WordRunsFrom(s, [])
  }

  /** The runs of `s`, the first one continuing the run `acc` already read. */
  function WordRunsFrom(s: string, acc: string): (r: seq<string>)
    requires AllWordChars(acc)
    ensures forall k :: 0 <= k < |r| ==> r[k] != [] && AllWordChars(r[k])
    decreases |s|
  {
    if s == [] then (if acc == [] then [] else [acc])
    else if IsWordChar(s[0]) then WordRunsFrom(s[1..], acc + [s[0]])
    else (if acc == [] then [] else [acc]) + WordRunsFrom(s[1..], [])
  }

  /** Every run is a piece of the text: its characters are the text's. */
  lemma {:induction false} WordRunsFromWithin(s: string, acc: string)
    requires AllWordChars(acc)
    ensures forall k :: 0 <= k < |WordRunsFrom(s, acc)| ==>
              forall c :: c in WordRunsFrom(s, acc)[k] ==> c in acc || c in s
    decreases |s|
  {
    if s != [] {
      assert forall c :: c in s[1..] ==> c in s;
      if IsWordChar(s[0]) {
        WordRunsFromWithin(s[1..], acc + [s[0]]);
      } else {
        WordRunsFromWithin(s[1..], []);
      }
    }
  }

  /** A text of word characters only is one run (or none, when empty). */
  lemma {:induction false} WordRunsOfWord(s: string, acc: string)
    requires AllWordChars(acc) && AllWordChars(s)
    ensures WordRunsFrom(s, acc) == if acc + s == [] then [] else [acc + s]
    decreases |s|
  {
    if s == [] {
      assert acc + s == acc;
    } else {
      assert IsWordChar(s[0]);
      assert AllWordChars(s[1..]);
      WordRunsOfWord(s[1..], acc + [s[0]]);
      assert acc + [s[0]] + s[1..] == acc + s;
    }
  }

  /** Runs separated by a non-word character are the runs of each side. */
  lemma WordRunsSeparated(a: string, c: char, b: string)
    requires AllWordChars(a) && !IsWordChar(c)
    ensures WordRuns(a + [c] + b) == (if a == [] then [] else [a]) + WordRuns(b)
  {
    WordRunsPrefix(a, [c] + b, []);
    assert a + [c] + b == a + ([c] + b);
    assert ([c] + b)[1..] == b;
    assert [] + a == a;
  }

  lemma {:induction false} WordRunsPrefix(a: string, s: string, acc: string)
    requires AllWordChars(acc) && AllWordChars(a)
    ensures WordRunsFrom(a + s, acc) == WordRunsFrom(s, acc + a)
    decreases |a|
  {
    if a == [] {
      assert a + s == s && acc + a == acc;
    } else {
      assert (a + s)[0] == a[0] && (a + s)[1..] == a[1..] + s;
      assert IsWordChar(a[0]);
      assert AllWordChars(a[1..]);
      WordRunsPrefix(a[1..], s, acc + [a[0]]);
      assert acc + [a[0]] + a[1..] == acc + a;
    }
  }

  /** `\b[a-zA-Z]{n,}\b`: a whole run of at least `n` ASCII letters. */
  predicate LetterWord(w: string, n: nat) {
    |w| >= n && AllLetters(w)
  }

  /** `\b[A-Z][a-z]+\b`: a whole run of one capital and one or more small letters. */
  predicate CapitalisedWord(w: string) {
    |w| >= 2 && IsUpperAscii(w[0]) && forall i :: 1 <= i < |w| ==> IsLowerAscii(w[i])
  }

  /** The number of ASCII letters `s` starts with. */
  function LetterRun(s: string): (n: nat)
    ensures n <= |s|
    ensures forall i :: 0 <= i < n ==> IsAsciiLetter(s[i])
    ensures n < |s| ==> !IsAsciiLetter(s[n])
  {
    if s != [] && IsAsciiLetter(s[0]) then 1 + LetterRun(s[1..]) else 0
  }

  /**
   * `re.findall(r'[A-Z][a-zA-Z]+', s)`: scanning left to right, a capital
   * followed by a letter starts a match that takes every letter after it.
   */
  function CapitalRuns(s: string): (r: seq<string>)
    ensures forall k :: 0 <= k < |r| ==> |r[k]| >= 2 && IsUpperAscii(r[k][0]) && AllLetters(r[k])
    decreases |s|
  {
    if |s| < 2 then []
    else if IsUpperAscii(s[0]) && IsAsciiLetter(s[1]) then
      var n := LetterRun(s);
      [s[..n]] + CapitalRuns(s[n..])
    else CapitalRuns(s[1..])
  }

  /** A text without capitals has no match. */
  lemma {:induction false} CapitalRunsNoCapital(s: string)
    requires forall i :: 0 <= i < |s| ==> !IsUpperAscii(s[i])
    ensures CapitalRuns(s) == []
    decreases |s|
  {
    if |s| >= 2 {
      CapitalRunsNoCapital(s[1..]);
    }
  }
}
