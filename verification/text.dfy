/**
 * The Python string operations the matcher relies on, stated over `seq<char>`:
 * `strip`, `split(sep)`, `split()`, `join`, `in` (substring), `find`,
 * `startswith`/`endswith`, slicing `[:n]`, `lower` (ASCII letters) and `int()`.
 */
module Text {
  import opened Wrappers

  /** Python `str.isspace` for one character. */
  predicate IsSpace(c: char) {
    c == ' ' || c == '\t' || c == '\n' || c == '\r' || c == '\U{0B}' || c == '\U{0C}'
    || ('\U{1C}' <= c <= '\U{1F}') || c == '\U{85}' || c == '\U{A0}' || c == '\U{1680}'
    || ('\U{2000}' <= c <= '\U{200A}') || c == '\U{2028}' || c == '\U{2029}'
    || c == '\U{202F}' || c == '\U{205F}' || c == '\U{3000}'
  }

  predicate IsBlank(s: string) {
    forall i :: 0 <= i < |s| ==> IsSpace(s[i])
  }

  function LowerChar(c: char): char {
    if 'A' <= c <= 'Z' then (c as int + 32) as char else c
  }

  function UpperChar(c: char): char {
    if 'a' <= c <= 'z' then (c as int - 32) as char else c
  }

  /** `s.lower()`, restricted to ASCII letters. */
  function Lower(s: string): (r: string)
    ensures |r| == |s|
    ensures forall i :: 0 <= i < |s| ==> r[i] == LowerChar(s[i])
  {
    if s == [] then [] else [LowerChar(s[0])] + Lower(s[1..])
  }

  /** `s.upper()`, restricted to ASCII letters. */
  function Upper(s: string): (r: string)
    ensures |r| == |s|
    ensures forall i :: 0 <= i < |s| ==> r[i] == UpperChar(s[i])
  {
    if s == [] then [] else [UpperChar(s[0])] + Upper(s[1..])
  }

  lemma LowerIdempotent(s: string)
    ensures Lower(Lower(s)) == Lower(s)
  {
  }

  lemma LowerConcat(a: string, b: string)
    ensures Lower(a + b) == Lower(a) + Lower(b)
  {
  }

  function TrimStart(s: string): (r: string)
    ensures |r| <= |s| && r == s[|s| - |r|..]
    ensures r == [] || !IsSpace(r[0])
    ensures forall i :: 0 <= i < |s| - |r| ==> IsSpace(s[i])
  {
    if s != [] && IsSpace(s[0]) then TrimStart(s[1..]) else s
  }

  function TrimEnd(s: string): (r: string)
    ensures |r| <= |s| && r == s[..|r|]
    ensures r == [] || !IsSpace(r[|r| - 1])
    ensures forall i :: |r| <= i < |s| ==> IsSpace(s[i])
  {
    if s != [] && IsSpace(s[|s| - 1]) then TrimEnd(s[..|s| - 1]) else s
  }

  /** `s.strip()`: the slice of `s` between its leading and trailing whitespace. */
  function Strip(s: string): (r: string)
    ensures |r| <= |s|
    ensures r == [] || (!IsSpace(r[0]) && !IsSpace(r[|r| - 1]))
  {
    TrimEnd(TrimStart(s))
  }

  lemma StripEmptyIffBlank(s: string)
    ensures Strip(s) == [] <==> IsBlank(s)
  {
    var t := TrimStart(s);
    if IsBlank(s) {
      BlankTrimStart(s);
    } else {
      var i :| 0 <= i < |s| && !IsSpace(s[i]);
      assert i >= |s| - |t|;
      assert !IsSpace(t[i - (|s| - |t|)]);
    }
  }

  lemma BlankTrimStart(s: string)
    requires IsBlank(s)
    ensures TrimStart(s) == []
  {
    if s != [] { BlankTrimStart(s[1..]); }
  }

  /** Python `p in s` for strings: `p` occurs in `s` at some position. */
  predicate Contains(s: string, p: string) {
    StartsWith(s, p) || (s != [] && Contains(s[1..], p))
  }

  predicate StartsWith(s: string, p: string) {
    |p| <= |s| && s[..|p|] == p
  }

  predicate EndsWith(s: string, p: string) {
    |p| <= |s| && s[|s| - |p|..] == p
  }

  lemma EndsWithAppend(a: string, b: string)
    ensures EndsWith(a + b, b)
  {
    assert (a + b)[|a|..] == b;
  }

  /** `any(w in text for w in words)` */
  predicate MentionsAny(text: string, words: seq<string>) {
    exists k :: 0 <= k < |words| && Contains(text, words[k])
  }

  /** `s.find(p)`: the first position where `p` occurs, or -1. */
  function Find(s: string, p: string): (i: int)
    ensures i == -1 || 0 <= i <= |s| - |p|
    ensures i >= 0 ==> s[i..i + |p|] == p
    ensures i >= 0 <==> Contains(s, p)
    ensures forall j :: 0 <= j < i ==> !StartsWith(s[j..], p)
  {
    if StartsWith(s, p) then 0
    else if s == [] then -1
    else
      var k := Find(s[1..], p);
      if k < 0 then -1
      else
        assert forall j :: 1 <= j < k + 1 ==> s[j..] == s[1..][j - 1..];
        k + 1
  }

  lemma ContainsAt(s: string, p: string, i: int)
    requires 0 <= i <= |s| - |p| && s[i..i + |p|] == p
    ensures Contains(s, p)
  {
    if i > 0 {
      assert s[1..][i - 1..i - 1 + |p|] == p;
      ContainsAt(s[1..], p, i - 1);
    }
  }

  /** Every substring of `s` occurs in `s`. */
  lemma ContainsSlice(s: string, i: int, j: int)
    requires 0 <= i <= j <= |s|
    ensures Contains(s, s[i..j])
  {
    ContainsAt(s, s[i..j], i);
  }

  /** A text containing `p + q` contains `p`. */
  lemma {:induction false} ContainsPrefixOf(s: string, p: string, q: string)
    requires Contains(s, p + q)
    ensures Contains(s, p)
  {
    var i := Find(s, p + q);
    assert s[i..i + |p|] == (p + q)[..|p|] == p;
    ContainsAt(s, p, i);
  }

  /** A text lacking one of the pattern's characters does not contain the pattern. */
  lemma MissingChar(s: string, p: string, c: char)
    requires c in p && c !in s
    ensures !Contains(s, p)
  {
    if Contains(s, p) {
      ContainsChars(s, p);
    }
  }

  /** Every character of a contained pattern is a character of the text. */
  lemma ContainsChars(s: string, p: string)
    requires Contains(s, p)
    ensures forall c :: c in p ==> c in s
  {
    var i := Find(s, p);
    forall c | c in p
      ensures c in s
    {
      var k :| 0 <= k < |p| && p[k] == c;
      assert s[i..i + |p|][k] == s[i + k];
    }
  }

  /** Occurrence is preserved by extending the text on either side. */
  lemma ContainsExtend(a: string, s: string, b: string, p: string)
    requires Contains(s, p)
    ensures Contains(a + s + b, p)
  {
    var i := Find(s, p);
    assert (a + s + b)[|a| + i..|a| + i + |p|] == s[i..i + |p|];
    ContainsAt(a + s + b, p, |a| + i);
  }

  lemma SliceOfSlice(s: string, a: int, b: int, c: int, d: int)
    requires 0 <= a <= b <= |s| && 0 <= c <= d <= b - a
    ensures s[a..b][c..d] == s[a + c..a + d]
  {
    assert forall k :: 0 <= k < d - c ==> s[a..b][c..d][k] == s[a + c + k];
  }

  /** Occurrence is transitive. */
  lemma ContainsTrans(s: string, m: string, p: string)
    requires Contains(s, m) && Contains(m, p)
    ensures Contains(s, p)
  {
    var i := Find(s, m);
    var j := Find(m, p);
    var w := s[i..i + |m|];
    assert w == m;
    SliceOfSlice(s, i, i + |m|, j, j + |p|);
    ContainsAt(s, p, i + j);
  }

  /** The empty string occurs in every string, as in Python. */
  lemma ContainsEmpty(s: string)
    ensures Contains(s, [])
  {
  }

  /** `s[:n]` */
  function Take<T>(s: seq<T>, n: nat): (r: seq<T>)
    ensures |r| == if |s| <= n then |s| else n
    ensures r == s[..|r|]
  {
    if |s| <= n then s else s[..n]
  }

  /** `sep.join(parts)` */
  function Join(parts: seq<string>, sep: string): string {
    if parts == [] then []
    else if |parts| == 1 then parts[0]
    else parts[0] + sep + Join(parts[1..], sep)
  }

  /** Every part of a joined list occurs in the joined text. */
  lemma {:induction false} JoinContainsPart(parts: seq<string>, sep: string, x: string)
    requires x in parts
    ensures Contains(Join(parts, sep), x)
  {
    if |parts| == 1 {
      ContainsAt(x, x, 0);
    } else if parts[0] == x {
      ContainsAt(Join(parts, sep), x, 0);
    } else {
      var rest := parts[1..];
      JoinContainsPart(rest, sep, x);
      ContainsExtend(parts[0] + sep, Join(rest, sep), [], x);
      assert parts[0] + sep + Join(rest, sep) + [] == Join(parts, sep);
    }
  }

  /** Joining one more part adds the separator and the part at the end. */
  lemma {:induction false} JoinSnoc(parts: seq<string>, sep: string, x: string)
    ensures Join(parts + [x], sep) == if parts == [] then x else Join(parts, sep) + sep + x
  {
    if |parts| >= 2 {
      JoinSnoc(parts[1..], sep, x);
      assert (parts + [x])[1..] == parts[1..] + [x];
    } else if |parts| == 1 {
      assert (parts + [x])[1..] == [x];
    }
  }

  /** `s.split(sep)` for a one-character separator: at least one piece, none holding `sep`. */
  function Split(s: string, sep: char): (r: seq<string>)
    ensures |r| >= 1
    ensures forall k :: 0 <= k < |r| ==> sep !in r[k]
    decreases |s|
  {
    SplitFrom(s, sep, [])
  }

  function SplitFrom(s: string, sep: char, acc: string): (r: seq<string>)
    requires sep !in acc
    ensures |r| >= 1
    ensures forall k :: 0 <= k < |r| ==> sep !in r[k]
    decreases |s|
  {
    if s == [] then [acc]
    else if s[0] == sep then [acc] + SplitFrom(s[1..], sep, [])
    else SplitFrom(s[1..], sep, acc + [s[0]])
  }

  lemma {:induction false} SplitFromJoin(s: string, sep: char, acc: string)
    requires sep !in acc
    ensures Join(SplitFrom(s, sep, acc), [sep]) == acc + s
    decreases |s|
  {
    if s == [] {
    } else if s[0] == sep {
      SplitFromJoin(s[1..], sep, []);
      assert s == [sep] + s[1..];
    } else {
      SplitFromJoin(s[1..], sep, acc + [s[0]]);
      assert acc + [s[0]] + s[1..] == acc + s;
    }
  }

  /** Splitting on a character and joining the pieces back gives the original text. */
  lemma SplitJoin(s: string, sep: char)
    ensures Join(Split(s, sep), [sep]) == s
  {
    SplitFromJoin(s, sep, []);
  }

  lemma {:induction false} SplitFromBlank(s: string, sep: char, acc: string)
    requires sep !in acc && IsBlank(s) && IsBlank(acc)
    ensures forall k :: 0 <= k < |SplitFrom(s, sep, acc)| ==> IsBlank(SplitFrom(s, sep, acc)[k])
    decreases |s|
  {
    if s != [] {
      if s[0] == sep {
        SplitFromBlank(s[1..], sep, []);
      } else {
        SplitFromBlank(s[1..], sep, acc + [s[0]]);
      }
    }
  }

  /** The pieces of a blank text are blank. */
  lemma SplitBlank(s: string, sep: char)
    requires IsBlank(s)
    ensures forall k :: 0 <= k < |Split(s, sep)| ==> IsBlank(Split(s, sep)[k])
  {
    SplitFromBlank(s, sep, []);
  }

  /** A text without the separator splits into itself alone. */
  lemma {:induction false} SplitNoSep(s: string, sep: char, acc: string)
    requires sep !in acc && sep !in s
    ensures SplitFrom(s, sep, acc) == [acc + s]
    decreases |s|
  {
    if s == [] {
      assert acc + s == acc;
    } else {
      assert s[0] in s && s[0] != sep;
      assert forall c :: c in s[1..] ==> c in s;
      SplitNoSep(s[1..], sep, acc + [s[0]]);
      assert acc + [s[0]] + s[1..] == acc + s;
    }
  }

  lemma {:induction false} SplitFromPrefix(x: string, s: string, sep: char, acc: string)
    requires sep !in acc && sep !in x
    ensures SplitFrom(x + s, sep, acc) == SplitFrom(s, sep, acc + x)
    decreases |x|
  {
    if x != [] {
      assert (x + s)[0] == x[0] && (x + s)[1..] == x[1..] + s;
      assert x[0] in x;
      assert forall c :: c in x[1..] ==> c in x;
      SplitFromPrefix(x[1..], s, sep, acc + [x[0]]);
      assert acc + [x[0]] + x[1..] == acc + x;
    } else {
      assert x + s == s && acc + x == acc;
    }
  }

  /** Joining pieces free of the separator and splitting again gives the pieces back. */
  lemma {:induction false} JoinSplit(parts: seq<string>, sep: char)
    requires parts != []
    requires forall k :: 0 <= k < |parts| ==> sep !in parts[k]
    ensures Split(Join(parts, [sep]), sep) == parts
  {
    if |parts| == 1 {
      SplitNoSep(parts[0], sep, []);
      assert [] + parts[0] == parts[0];
    } else {
      var rest := parts[1..];
      JoinSplit(rest, sep);
      var j := Join(rest, [sep]);
      assert Join(parts, [sep]) == parts[0] + ([sep] + j);
      SplitFromPrefix(parts[0], [sep] + j, sep, []);
      assert ([sep] + j)[1..] == j;
      assert [] + parts[0] == parts[0];
      assert parts == [parts[0]] + rest;
    }
  }

  /** Stripping only removes characters. */
  lemma StripWithin(s: string)
    ensures forall c :: c in Strip(s) ==> c in s
  {
    var t := TrimStart(s);
    assert forall c :: c in TrimEnd(t) ==> c in t;
    assert forall c :: c in t ==> c in s;
  }

  /** `s.split()`: the maximal runs of non-whitespace characters. */
  function Words(s: string): (r: seq<string>)
    ensures forall k :: 0 <= k < |r| ==> r[k] != [] && forall c :: c in r[k] ==> !IsSpace(c)
    decreases |s|
  {
    WordsFrom(s, [])
  }

  function WordsFrom(s: string, acc: string): (r: seq<string>)
    requires forall c :: c in acc ==> !IsSpace(c)
    ensures forall k :: 0 <= k < |r| ==> r[k] != [] && forall c :: c in r[k] ==> !IsSpace(c)
    decreases |s|
  {
    if s == [] then (if acc == [] then [] else [acc])
    else if IsSpace(s[0]) then (if acc == [] then [] else [acc]) + WordsFrom(s[1..], [])
    else WordsFrom(s[1..], acc + [s[0]])
  }

  /** A piece without whitespace continues the word being read. */
  lemma {:induction false} WordsFromPrefix(a: string, s: string, acc: string)
    requires forall c :: c in acc ==> !IsSpace(c)
    requires forall c :: c in a ==> !IsSpace(c)
    ensures forall c :: c in acc + a ==> !IsSpace(c)
    ensures WordsFrom(a + s, acc) == WordsFrom(s, acc + a)
    decreases |a|
  {
    if a == [] {
      assert a + s == s && acc + a == acc;
    } else {
      assert (a + s)[0] == a[0] && (a + s)[1..] == a[1..] + s;
      assert a[0] in a;
      assert forall c :: c in a[1..] ==> c in a;
      WordsFromPrefix(a[1..], s, acc + [a[0]]);
      assert acc + [a[0]] + a[1..] == acc + a;
    }
  }

  function Digit(c: char): nat
    requires '0' <= c <= '9'
  {
    c as int - '0' as int
  }

  predicate AllDigits(s: string) {
    forall i :: 0 <= i < |s| ==> '0' <= s[i] <= '9'
  }

  function DigitsValue(s: string): nat
    requires AllDigits(s)
  {
    if s == [] then 0 else DigitsValue(s[..|s| - 1]) * 10 + Digit(s[|s| - 1])
  }

  /** Decimal rendering of a natural number, as `str(n)`. */
  function NatToString(n: nat): (r: string)
    ensures r != [] && AllDigits(r)
  {
    if n < 10 then [('0' as int + n) as char]
    else NatToString(n / 10) + [('0' as int + n % 10) as char]
  }

  lemma {:induction false} NatToStringValue(n: nat)
    ensures DigitsValue(NatToString(n)) == n
  {
    if n >= 10 {
      NatToStringValue(n / 10);
      var s := NatToString(n);
      assert s[..|s| - 1] == NatToString(n / 10);
    }
  }

  /**
   * Python `int(s)` for a decimal literal: surrounding whitespace, an
   * optional sign and at least one ASCII digit; anything else raises
   * `ValueError`, which is `None` here.
   */
  function ParseInt(s: string): (r: Option<int>)
    ensures r.Some? ==> Strip(s) != []
  {
    var t := Strip(s);
    if t == [] then None
    else if t[0] == '-' || t[0] == '+' then
      var d := t[1..];
      if d != [] && AllDigits(d) then
        var v: int := DigitsValue(d);
        Some(if t[0] == '-' then -v else v)
      else None
    else if AllDigits(t) then Some(DigitsValue(t))
    else None
  }

  lemma StripNoSpace(s: string)
    requires s == [] || (!IsSpace(s[0]) && !IsSpace(s[|s| - 1]))
    ensures Strip(s) == s
  {
  }

  /** `int(str(n)) == n`: the rendering of an index parses back to it. */
  lemma ParseNatToString(n: nat)
    ensures ParseInt(NatToString(n)) == Some(n)
  {
    var s := NatToString(n);
    assert '0' <= s[0] <= '9' && '0' <= s[|s| - 1] <= '9';
    StripNoSpace(s);
    assert s[0] != '-' && s[0] != '+';
    NatToStringValue(n);
  }

  lemma ParseSigned(t: string)
    requires |t| >= 2 && t[0] == '-' && AllDigits(t[1..]) && Strip(t) == t
    ensures ParseInt(t) == Some(-(DigitsValue(t[1..]) as int))
  {
  }

  /** `int("-" + str(n)) == -n`. */
  lemma ParseNegative(n: nat)
    ensures ParseInt("-" + NatToString(n)) == Some(-(n as int))
  {
    var d := NatToString(n);
    var s := "-" + d;
    assert s[0] == '-' && s[|s| - 1] == d[|d| - 1];
    assert !IsSpace(s[0]) && !IsSpace(s[|s| - 1]);
    StripNoSpace(s);
    assert s[1..] == d;
    NatToStringValue(n);
    ParseSigned(s);
  }

  lemma {:induction false} SplitFromWithin(s: string, sep: char, acc: string)
    requires sep !in acc
    ensures forall k :: 0 <= k < |SplitFrom(s, sep, acc)| ==> forall c :: c in SplitFrom(s, sep, acc)[k] ==> c in acc || c in s
    decreases |s|
  {
    if s != [] {
      assert forall c :: c in s[1..] ==> c in s;
      if s[0] == sep {
        SplitFromWithin(s[1..], sep, []);
        var r := SplitFrom(s[1..], sep, []);
        assert forall k :: 1 <= k < |r| + 1 ==> SplitFrom(s, sep, acc)[k] == r[k - 1];
      } else {
        SplitFromWithin(s[1..], sep, acc + [s[0]]);
      }
    }
  }

  /** The pieces of a split hold only characters of the text. */
  lemma SplitWithin(s: string, sep: char)
    ensures forall k :: 0 <= k < |Split(s, sep)| ==> forall c :: c in Split(s, sep)[k] ==> c in s
  {
    SplitFromWithin(s, sep, []);
  }
}
