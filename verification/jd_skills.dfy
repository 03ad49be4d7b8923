/**
 * The skill extraction of the job-description parser: a fixed vocabulary of
 * technical skills is searched for as whole words in the lower-cased text;
 * each one found is filed as preferred when the 300 characters around its
 * first occurrence carry a "preferred" cue and no "required" cue, and as
 * required otherwise.  A second pass looks for the vocabulary inside the
 * bullet items the bullet pattern finds.  Both lists are returned as
 * `sorted(set(...))`.
 *
 * Python's `\b` is modelled over ASCII word characters, and `sorted` on
 * strings as the code-point lexicographic order.
 */
module JdSkills {
  import opened Wrappers
  import opened Text
  import opened Collections
  import opened JdPostprocess

  // ---------------------------------------------------------------- string order

  /** Python's `<` on strings: code-point lexicographic order. */
  predicate StrLess(a: string, b: string) {
    if a == [] then b != []
    else b != [] && (a[0] < b[0] || (a[0] == b[0] && StrLess(a[1..], b[1..])))
  }

  lemma {:induction false} StrLessIrreflexive(a: string)
    ensures !StrLess(a, a)
  {
    if a != [] {
      StrLessIrreflexive(a[1..]);
    }
  }

  lemma {:induction false} StrLessAsymmetric(a: string, b: string)
    requires StrLess(a, b)
    ensures !StrLess(b, a)
  {
    if a != [] && a[0] == b[0] {
      StrLessAsymmetric(a[1..], b[1..]);
    }
  }

  lemma {:induction false} StrLessTransitive(a: string, b: string, c: string)
    requires StrLess(a, b) && StrLess(b, c)
    ensures StrLess(a, c)
  {
    if a != [] && a[0] == b[0] && b[0] == c[0] {
      StrLessTransitive(a[1..], b[1..], c[1..]);
    }
  }

  lemma {:induction false} StrLessTotal(a: string, b: string)
    ensures a == b || StrLess(a, b) || StrLess(b, a)
  {
    if a != [] && b != [] && a[0] == b[0] {
      StrLessTotal(a[1..], b[1..]);
      if a[1..] == b[1..] {
        assert a == [a[0]] + a[1..] && b == [b[0]] + b[1..];
      }
    }
  }

  /** Strictly increasing, hence free of duplicates. */
  predicate StrictlySorted(s: seq<string>) {
    forall i, j :: 0 <= i < j < |s| ==> StrLess(s[i], s[j])
  }

  /** Inserts `x` at its place in a strictly sorted list, unless it is there already. */
  function InsertName(x: string, s: seq<string>): (r: seq<string>)
    ensures forall y :: y in r <==> y == x || y in s
  {
    if s == [] then [x]
    else if x == s[0] then s
    else if StrLess(x, s[0]) then [x] + s
    else
      assert forall y :: y in s <==> y == s[0] || y in s[1..];
      [s[0]] + InsertName(x, s[1..])
  }

  lemma {:induction false} InsertNameSorted(x: string, s: seq<string>)
    requires StrictlySorted(s)
    ensures StrictlySorted(InsertName(x, s))
  {
    if s != [] && x != s[0] && !StrLess(x, s[0]) {
      var t := s[1..];
      assert StrictlySorted(t) by {
        forall i, j | 0 <= i < j < |t| ensures StrLess(t[i], t[j]) {
          assert t[i] == s[i + 1] && t[j] == s[j + 1];
        }
      }
      InsertNameSorted(x, t);
      StrLessTotal(x, s[0]);
      var r := InsertName(x, t);
      forall y | y in r ensures StrLess(s[0], y) {
        if y != x {
          var j :| 0 <= j < |t| && t[j] == y;
          assert s[j + 1] == y;
        }
      }
    } else if s != [] && x != s[0] {
      forall j | 0 <= j < |s| ensures StrLess(x, s[j]) {
        if j > 0 {
          StrLessTransitive(x, s[0], s[j]);
        }
      }
    }
  }

  /** `sorted(set(xs))` */
  function SortedSet(xs: seq<string>): seq<string> {
    if xs == [] then [] else InsertName(xs[|xs| - 1], SortedSet(xs[..|xs| - 1]))
  }

  /** The sorted set is strictly increasing and holds exactly the elements of the list. */
  lemma {:induction false} SortedSetSpec(xs: seq<string>)
    ensures StrictlySorted(SortedSet(xs))
    ensures forall y :: y in SortedSet(xs) <==> y in xs
  {
    if xs != [] {
      var init := xs[..|xs| - 1];
      SortedSetSpec(init);
      InsertNameSorted(xs[|xs| - 1], SortedSet(init));
      assert xs == init + [xs[|xs| - 1]];
    }
  }

  lemma FirstIn(a: seq<string>)
    ensures a != [] ==> a[0] in a
  {
  }

  /** There is only one strictly sorted list of a given set of names, so the order of `xs` does not matter. */
  lemma {:induction false} SortedUnique(a: seq<string>, b: seq<string>)
    requires StrictlySorted(a) && StrictlySorted(b)
    requires forall y :: y in a <==> y in b
    ensures a == b
  {
    if a == [] || b == [] {
      FirstIn(a);
      FirstIn(b);
    } else {
      if a[0] != b[0] {
        assert a[0] in a && b[0] in b;
        var i :| 0 <= i < |b| && b[i] == a[0];
        var j :| 0 <= j < |a| && a[j] == b[0];
        assert StrLess(b[0], a[0]) && StrLess(a[0], b[0]);
        StrLessAsymmetric(a[0], b[0]);
      }
      var ta, tb := a[1..], b[1..];
      forall y ensures y in ta <==> y in tb {
        if y in ta {
          var i :| 0 <= i < |ta| && ta[i] == y;
          assert StrLess(a[0], a[i + 1]);
          StrLessIrreflexive(y);
          assert y in b && y != b[0];
        }
        if y in tb {
          var i :| 0 <= i < |tb| && tb[i] == y;
          assert StrLess(b[0], b[i + 1]);
          StrLessIrreflexive(y);
          assert y in a && y != a[0];
        }
      }
      assert StrictlySorted(ta) by {
        forall i, j | 0 <= i < j < |ta| ensures StrLess(ta[i], ta[j]) {
          assert ta[i] == a[i + 1] && ta[j] == a[j + 1];
        }
      }
      assert StrictlySorted(tb) by {
        forall i, j | 0 <= i < j < |tb| ensures StrLess(tb[i], tb[j]) {
          assert tb[i] == b[i + 1] && tb[j] == b[j + 1];
        }
      }
      SortedUnique(ta, tb);
      assert a == [a[0]] + ta && b == [b[0]] + tb;
    }
  }

  // ---------------------------------------------------------------- whole-word search

  /** `\w` over ASCII. */
  predicate IsWordChar(c: char) {
    IsAsciiLetter(c) || '0' <= c <= '9' || c == '_'
  }

  /** `\b` at position `p`: a word character on exactly one side. */
  predicate AtBoundary(t: string, p: int)
    requires 0 <= p <= |t|
  {
    (p > 0 && IsWordChar(t[p - 1])) != (p < |t| && IsWordChar(t[p]))
  }

  /** `\bw\b` matches at position `i`. */
  predicate WordAt(t: string, w: string, i: int)
    requires 0 <= i <= |t| - |w|
  {
    t[i..i + |w|] == w && AtBoundary(t, i) && AtBoundary(t, i + |w|)
  }

  /** `re.search(r'\b' + re.escape(w) + r'\b', t)`, as the parser writes it. */
  predicate HasWord(t: string, w: string) {
    exists i | 0 <= i <= |t| - |w| :: WordAt(t, w, i)
  }

  /** `w` occurs at `i` with no word character touching it on either side. */
  predicate TokenAt(t: string, w: string, i: int)
    requires 0 <= i <= |t| - |w|
  {
    && t[i..i + |w|] == w
    && (i == 0 || !IsWordChar(t[i - 1]))
    && (i + |w| == |t| || !IsWordChar(t[i + |w|]))
  }

  /** `re.search(r'(?<!\w)' + re.escape(w) + r'(?!\w)', t)`: the whole-word test the parser means. */
  predicate HasToken(t: string, w: string) {
    exists i | 0 <= i <= |t| - |w| :: TokenAt(t, w, i)
  }

  /** For a name that begins and ends with a word character the two tests agree at every position. */
  lemma TokenAtIsWordAt(t: string, w: string, i: int)
    requires 0 <= i <= |t| - |w|
    requires w != [] && IsWordChar(w[0]) && IsWordChar(w[|w| - 1])
    ensures TokenAt(t, w, i) <==> WordAt(t, w, i)
  {
    if t[i..i + |w|] == w {
      assert t[i] == w[0] && t[i + |w| - 1] == w[|w| - 1];
    }
  }

  lemma TokenMatchesWord(t: string, w: string)
    requires w != [] && IsWordChar(w[0]) && IsWordChar(w[|w| - 1])
    ensures HasToken(t, w) <==> HasWord(t, w)
  {
    forall i | 0 <= i <= |t| - |w| ensures TokenAt(t, w, i) <==> WordAt(t, w, i) {
      TokenAtIsWordAt(t, w, i);
    }
  }

  /** `\bc\+\+\b` matches only where a word character follows: "c++" before a space or at the end is never seen. */
  lemma CppNeedsWordAfter(t: string, i: int)
    requires 0 <= i <= |t| - 3 && WordAt(t, "c++", i)
    ensures i + 3 < |t| && IsWordChar(t[i + 3])
  {
    assert t[i + 2] == "c++"[2];
  }

  lemma CppMissedByWordPattern()
    ensures !HasWord("c++ dev", "c++")
  {
    var t := "c++ dev";
    if HasWord(t, "c++") {
      var i :| 0 <= i <= |t| - 3 && WordAt(t, "c++", i);
      CppNeedsWordAfter(t, i);
    }
  }

  lemma CppFoundAsToken()
    ensures HasToken("c++ dev", "c++")
  {
    assert TokenAt("c++ dev", "c++", 0);
  }

  // ---------------------------------------------------------------- context window

  lemma LowerSlice(s: string, a: int, b: int)
    requires 0 <= a <= b <= |s|
    ensures Lower(s[a..b]) == Lower(s)[a..b]
  {
    var x, y := Lower(s[a..b]), Lower(s)[a..b];
    forall k | 0 <= k < |x| ensures x[k] == y[k] {
      assert x[k] == LowerChar(s[a..b][k]);
      assert s[a..b][k] == s[a + k];
    }
  }

  lemma WindowHolds(s: string, p: string, a: int, b: int, i: int)
    requires 0 <= a <= i && i + |p| <= b <= |s| && s[i..i + |p|] == p
    ensures Contains(s[a..b], p)
  {
    SliceOfSlice(s, a, b, i - a, i - a + |p|);
    ContainsAt(s[a..b], p, i - a);
  }

  /** A window of `text` around an occurrence at `i` of `p` in the lower-cased text holds `p` once lower-cased. */
  lemma LowerWindow(text: string, p: string, i: int, a: int, b: int)
    requires 0 <= a <= i && i + |p| <= b <= |text| && Lower(text)[i..i + |p|] == p
    ensures Contains(text, text[a..b]) && Contains(Lower(text[a..b]), p)
  {
    ContainsSlice(text, a, b);
    LowerSlice(text, a, b);
    WindowHolds(Lower(text), p, a, b, i);
  }

  /**
   * `_get_context_around`: the text from `chars` characters before the
   * first case-insensitive occurrence of the keyword to `chars` characters
   * after it, clipped to the text.  When the keyword does not occur the
   * result is empty; when it does, the result is a piece of the text, holds
   * the keyword, and is at most `2 * chars` longer than it.
   */
  function ContextAround(text: string, keyword: string, chars: nat): (r: string)
    ensures !Contains(Lower(text), Lower(keyword)) ==> r == ""
    ensures Contains(Lower(text), Lower(keyword)) ==>
              Contains(text, r) && Contains(Lower(r), Lower(keyword)) && |r| <= |keyword| + 2 * chars
  {
    var lk := Lower(keyword);
    var i := Find(Lower(text), lk);
    if i == -1 then ""
    else
      var a, b := Max(0, i - chars), Min(|text|, i + |lk| + chars);
      LowerWindow(text, lk, i, a, b);
      text[a..b]
  }

  // ---------------------------------------------------------------- names and cues

  const PreferredCues: seq<string> := [
    "preferred", "nice to have", "nice-to-have", "bonus", "plus",
    "would be nice", "optional", "desired but not required"]

  const RequiredCues: seq<string> := [
    "required", "must have", "must-have", "essential", "mandatory",
    "need", "needed", "requirement"]

  /** The words that file a skill found in a bullet as preferred. */
  const BulletPreferredWords: seq<string> := ["preferred", "nice", "bonus", "optional"]

  /** The technical skills searched for, in the parser's order. */
  const Vocabulary: seq<string> := [
    "python", "java", "javascript", "typescript", "c++", "c#", "go", "rust", "ruby", "php", "swift", "kotlin",
    "react", "angular", "vue", "vue.js", "next.js", "nuxt", "svelte", "jquery", "html", "css", "sass", "less",
    "node.js", "nodejs", "django", "flask", "fastapi", "spring", "express", "nest.js", "laravel", "rails",
    "sql", "postgresql", "mysql", "mongodb", "redis", "cassandra", "elasticsearch", "dynamodb", "oracle",
    "aws", "azure", "gcp", "google cloud", "docker", "kubernetes", "k8s", "terraform", "ansible", "jenkins",
    "git", "ci/cd", "github actions", "gitlab", "circleci", "travis ci",
    "machine learning", "ml", "ai", "artificial intelligence", "deep learning", "tensorflow", "pytorch", "keras",
    "scikit-learn", "pandas", "numpy", "data science",
    "agile", "scrum", "kanban", "devops", "microservices", "rest api", "graphql", "gRPC",
    "jira", "confluence", "slack", "figma", "adobe", "photoshop", "illustrator"]

  /** `skill.title() if skill.islower() else skill` */
  function PlainTitle(skill: string): string {
    if IsLowerText(skill) then TitleCase(skill) else skill
  }

  function TitledParts(parts: seq<string>): (r: seq<string>)
    ensures |r| == |parts| && forall k :: 0 <= k < |parts| ==> r[k] == TitleCase(Strip(parts[k]))
  {
    seq(|parts|, k requires 0 <= k < |parts| => TitleCase(Strip(parts[k])))
  }

  /** The name the vocabulary pass files: "AI", "Machine Learning", each part of a '/' name titled, or the plain title. */
  function SkillTitle(skill: string): string {
    var low := Lower(skill);
    if low == "ai" then "AI"
    else if low == "ml" then "Machine Learning"
    else if '/' in skill then Join(TitledParts(Split(skill, '/')), "/")
    else PlainTitle(skill)
  }

  lemma LowerUpperChar(c: char)
    ensures LowerChar(UpperChar(c)) == LowerChar(c) && LowerChar(LowerChar(c)) == LowerChar(c)
  {
  }

  lemma {:induction false} TitleCaseChar(s: string, k: int)
    requires 0 <= k < |s|
    ensures LowerChar(TitleCase(s)[k]) == LowerChar(s[k])
  {
    var init := s[..|s| - 1];
    if k == |s| - 1 {
      LowerUpperChar(s[k]);
    } else {
      TitleCaseChar(init, k);
      assert TitleCase(s)[k] == TitleCase(init)[k];
    }
  }

  /** `str.title()` only changes the case of letters. */
  lemma TitleCaseSameLetters(s: string)
    ensures Lower(TitleCase(s)) == Lower(s)
  {
    var x, y := Lower(TitleCase(s)), Lower(s);
    forall k | 0 <= k < |x| ensures x[k] == y[k] {
      TitleCaseChar(s, k);
    }
  }

  /** Apart from "ml", a skill without a '/' is filed under a name that differs from it only in case. */
  lemma SkillTitleSameLetters(skill: string)
    requires Lower(skill) != "ml" && '/' !in skill
    ensures Lower(SkillTitle(skill)) == Lower(skill)
  {
    TitleCaseSameLetters(skill);
    if Lower(skill) == "ai" {
      assert Lower("AI") == "ai";
    }
  }

  // ---------------------------------------------------------------- the two passes

  datatype SkillLists = SkillLists(required: seq<string>, preferred: seq<string>)

  /** The skill occurs in the lower-cased text as a whole word. */
  predicate Found(lowered: string, skill: string) {
    HasWord(lowered, Lower(skill))
  }

  /** The window around the skill's first occurrence has a preferred cue and no required cue. */
  predicate PreferredThere(lowered: string, skill: string) {
    var ctx := Lower(ContextAround(lowered, Lower(skill), 300));
    MentionsAny(ctx, PreferredCues) && !MentionsAny(ctx, RequiredCues)
  }

  function FoundIn(lowered: string): string -> bool {
    skill => Found(lowered, skill)
  }

  function PreferredIn(lowered: string): string -> bool {
    skill => PreferredThere(lowered, skill)
  }

  /** One vocabulary skill: filed under its title in one list, if found. */
  function VocabStep(acc: SkillLists, skill: string, found: string -> bool, prefer: string -> bool): SkillLists {
    if found(skill) then
      if prefer(skill) then acc.(preferred := AppendAbsent(acc.preferred, [SkillTitle(skill)]))
      else acc.(required := AppendAbsent(acc.required, [SkillTitle(skill)]))
    else acc
  }

  /** The vocabulary loop over `skills`. */
  function VocabPass(skills: seq<string>, found: string -> bool, prefer: string -> bool): SkillLists {
    if skills == [] then SkillLists([], [])
    else VocabStep(VocabPass(skills[..|skills| - 1], found, prefer), skills[|skills| - 1], found, prefer)
  }

  /** Some found skill whose window selects the list `preferred` is filed under `x`. */
  predicate FiledBy(skills: seq<string>, found: string -> bool, prefer: string -> bool, x: string, preferred: bool) {
    exists k :: 0 <= k < |skills| && x == SkillTitle(skills[k]) && found(skills[k]) && prefer(skills[k]) == preferred
  }

  lemma FiledByPrefix(skills: seq<string>, found: string -> bool, prefer: string -> bool, x: string, preferred: bool)
    requires skills != [] && FiledBy(skills[..|skills| - 1], found, prefer, x, preferred)
    ensures FiledBy(skills, found, prefer, x, preferred)
  {
    var init := skills[..|skills| - 1];
    var k :| 0 <= k < |init| && x == SkillTitle(init[k]) && found(init[k]) && prefer(init[k]) == preferred;
    assert init[k] == skills[k];
  }

  lemma FiledByLast(skills: seq<string>, found: string -> bool, prefer: string -> bool)
    requires skills != [] && found(skills[|skills| - 1])
    ensures FiledBy(skills, found, prefer, SkillTitle(skills[|skills| - 1]), prefer(skills[|skills| - 1]))
  {
  }

  /** Every name in a list is the title of a found skill whose window selects that list. */
  lemma {:induction false} VocabPassFrom(skills: seq<string>, found: string -> bool, prefer: string -> bool)
    ensures forall x :: x in VocabPass(skills, found, prefer).preferred ==> FiledBy(skills, found, prefer, x, true)
    ensures forall x :: x in VocabPass(skills, found, prefer).required ==> FiledBy(skills, found, prefer, x, false)
  {
    if skills != [] {
      var init := skills[..|skills| - 1];
      var prev := VocabPass(init, found, prefer);
      VocabPassFrom(init, found, prefer);
      AppendAbsentSpec(prev.preferred, [SkillTitle(skills[|skills| - 1])]);
      AppendAbsentSpec(prev.required, [SkillTitle(skills[|skills| - 1])]);
      forall x | x in prev.preferred ensures FiledBy(skills, found, prefer, x, true) {
        FiledByPrefix(skills, found, prefer, x, true);
      }
      forall x | x in prev.required ensures FiledBy(skills, found, prefer, x, false) {
        FiledByPrefix(skills, found, prefer, x, false);
      }
      if found(skills[|skills| - 1]) {
        FiledByLast(skills, found, prefer);
      }
    }
  }

  /** Every found skill's title is in the list its window selects. */
  lemma {:induction false} VocabPassCovers(skills: seq<string>, found: string -> bool, prefer: string -> bool)
    ensures forall k :: 0 <= k < |skills| && found(skills[k]) ==>
              SkillTitle(skills[k]) in (if prefer(skills[k]) then VocabPass(skills, found, prefer).preferred
                                        else VocabPass(skills, found, prefer).required)
  {
    if skills != [] {
      var init := skills[..|skills| - 1];
      var prev := VocabPass(init, found, prefer);
      VocabPassCovers(init, found, prefer);
      AppendAbsentSpec(prev.preferred, [SkillTitle(skills[|skills| - 1])]);
      AppendAbsentSpec(prev.required, [SkillTitle(skills[|skills| - 1])]);
      assert forall k :: 0 <= k < |init| ==> init[k] == skills[k];
    }
  }

  lemma {:induction false} VocabPassDistinct(skills: seq<string>, found: string -> bool, prefer: string -> bool)
    ensures NoDuplicates(VocabPass(skills, found, prefer).required)
    ensures NoDuplicates(VocabPass(skills, found, prefer).preferred)
  {
    if skills != [] {
      var prev := VocabPass(skills[..|skills| - 1], found, prefer);
      VocabPassDistinct(skills[..|skills| - 1], found, prefer);
      AppendAbsentSpec(prev.preferred, [SkillTitle(skills[|skills| - 1])]);
      AppendAbsentSpec(prev.required, [SkillTitle(skills[|skills| - 1])]);
    }
  }

  /** One vocabulary skill against one bullet: a found skill not filed yet goes by the bullet's wording. */
  function BulletStep(bullet: string, acc: SkillLists, skill: string): SkillLists {
    if Found(bullet, skill) && PlainTitle(skill) !in acc.required && PlainTitle(skill) !in acc.preferred then
      if MentionsAny(bullet, BulletPreferredWords) then acc.(preferred := acc.preferred + [PlainTitle(skill)])
      else acc.(required := acc.required + [PlainTitle(skill)])
    else acc
  }

  /** The inner loop over the vocabulary for one lower-cased bullet. */
  function BulletSkills(bullet: string, acc: SkillLists, skills: seq<string>): SkillLists {
    if skills == [] then acc
    else BulletStep(bullet, BulletSkills(bullet, acc, skills[..|skills| - 1]), skills[|skills| - 1])
  }

  /** The outer loop over the bullets. */
  function BulletPass(acc: SkillLists, bullets: seq<string>, skills: seq<string>): SkillLists {
    if bullets == [] then acc
    else BulletSkills(Lower(bullets[|bullets| - 1]), BulletPass(acc, bullets[..|bullets| - 1], skills), skills)
  }

  /** The plain title of one of the skills. */
  predicate PlainNameOf(skills: seq<string>, x: string) {
    exists k :: 0 <= k < |skills| && x == PlainTitle(skills[k])
  }

  /** The lists only grow, what is added is the plain title of a skill, and a name is never added to both. */
  predicate Grows(acc: SkillLists, r: SkillLists, skills: seq<string>) {
    && acc.required <= r.required && acc.preferred <= r.preferred
    && (NoDuplicates(acc.required + acc.preferred) ==> NoDuplicates(r.required + r.preferred))
    && forall x :: x in r.required + r.preferred ==> x in acc.required + acc.preferred || PlainNameOf(skills, x)
  }

  lemma GrowsTrans(a: SkillLists, b: SkillLists, c: SkillLists, skills: seq<string>)
    requires Grows(a, b, skills) && Grows(b, c, skills)
    ensures Grows(a, c, skills)
  {
  }

  lemma NoDuplicatesAddRequired(a: SkillLists, x: string)
    requires NoDuplicates(a.required + a.preferred) && x !in a.required && x !in a.preferred
    ensures NoDuplicates(a.required + [x] + a.preferred)
  {
    var s := a.required + [x] + a.preferred;
    var t := a.required + a.preferred;
    forall i, j | 0 <= i < j < |s| ensures s[i] != s[j] {
      if i < |a.required| && j > |a.required| {
        assert s[i] == t[i] && s[j] == t[j - 1];
      } else if i > |a.required| {
        assert s[i] == t[i - 1] && s[j] == t[j - 1];
      } else if j < |a.required| {
        assert s[i] == t[i] && s[j] == t[j];
      } else if i == |a.required| {
        assert s[j] == t[j - 1];
      } else {
        assert s[i] == t[i];
      }
    }
  }

  lemma BulletStepGrows(bullet: string, acc: SkillLists, skills: seq<string>, k: int)
    requires 0 <= k < |skills|
    ensures Grows(acc, BulletStep(bullet, acc, skills[k]), skills)
  {
    var x := PlainTitle(skills[k]);
    var r := BulletStep(bullet, acc, skills[k]);
    if r != acc {
      if r.required != acc.required {
        if NoDuplicates(acc.required + acc.preferred) {
          NoDuplicatesAddRequired(acc, x);
        }
        assert r.required + r.preferred == acc.required + [x] + acc.preferred;
      } else {
        if NoDuplicates(acc.required + acc.preferred) {
          NoDuplicatesAppend(acc.required + acc.preferred, x);
        }
        assert r.required + r.preferred == acc.required + acc.preferred + [x];
      }
    }
  }

  lemma {:induction false} BulletSkillsGrows(bullet: string, acc: SkillLists, skills: seq<string>, n: nat)
    requires n <= |skills|
    ensures Grows(acc, BulletSkills(bullet, acc, skills[..n]), skills)
  {
    if n > 0 {
      BulletSkillsGrows(bullet, acc, skills, n - 1);
      assert skills[..n][..n - 1] == skills[..n - 1];
      BulletStepGrows(bullet, BulletSkills(bullet, acc, skills[..n - 1]), skills, n - 1);
    }
  }

  lemma {:induction false} BulletPassGrows(acc: SkillLists, bullets: seq<string>, skills: seq<string>)
    ensures Grows(acc, BulletPass(acc, bullets, skills), skills)
  {
    if bullets != [] {
      var prev := BulletPass(acc, bullets[..|bullets| - 1], skills);
      BulletPassGrows(acc, bullets[..|bullets| - 1], skills);
      BulletSkillsGrows(Lower(bullets[|bullets| - 1]), prev, skills, |skills|);
      assert skills[..|skills|] == skills;
      GrowsTrans(acc, prev, BulletPass(acc, bullets, skills), skills);
    }
  }

  /** `_extract_skills_from_text` over a vocabulary; `skillBullets` gives the items of the bullet pattern. */
  function ExtractSkillsWith(text: string, skillBullets: string -> seq<string>, skills: seq<string>): SkillLists {
    var lowered := Lower(text);
    var r := BulletPass(VocabPass(skills, FoundIn(lowered), PreferredIn(lowered)), skillBullets(text), skills);
    SkillLists(SortedSet(r.required), SortedSet(r.preferred))
  }

  /** A name some vocabulary skill is filed under. */
  predicate SkillNameOf(skills: seq<string>, x: string) {
    exists k :: 0 <= k < |skills| && (x == SkillTitle(skills[k]) || x == PlainTitle(skills[k]))
  }

  /**
   * Both lists are sorted and free of duplicates, hold only names of
   * vocabulary skills, and every skill found in the text is in the list its
   * window selects.
   */
  lemma ExtractSkillsSpec(text: string, skillBullets: string -> seq<string>, skills: seq<string>)
    ensures var r := ExtractSkillsWith(text, skillBullets, skills);
            && StrictlySorted(r.required) && StrictlySorted(r.preferred)
            && (forall x :: x in r.required + r.preferred ==> SkillNameOf(skills, x))
            && (forall k :: 0 <= k < |skills| && Found(Lower(text), skills[k]) ==>
                  SkillTitle(skills[k]) in (if PreferredThere(Lower(text), skills[k]) then r.preferred else r.required))
  {
    var lowered := Lower(text);
    var found, prefer := FoundIn(lowered), PreferredIn(lowered);
    var v := VocabPass(skills, found, prefer);
    var b := BulletPass(v, skillBullets(text), skills);
    VocabPassFrom(skills, found, prefer);
    VocabPassCovers(skills, found, prefer);
    BulletPassGrows(v, skillBullets(text), skills);
    SortedSetSpec(b.required);
    SortedSetSpec(b.preferred);
    forall x | x in v.required + v.preferred ensures SkillNameOf(skills, x) {
      if x in v.required {
        assert FiledBy(skills, found, prefer, x, false);
      } else {
        assert FiledBy(skills, found, prefer, x, true);
      }
    }
    forall x | PlainNameOf(skills, x) ensures SkillNameOf(skills, x) {
    }
  }

  /** The vocabulary loop of `_extract_skills_from_text`. */
  method VocabLoop(lowered: string, skills: seq<string>) returns (acc: SkillLists)
    ensures acc == VocabPass(skills, FoundIn(lowered), PreferredIn(lowered))
  {
    acc := SkillLists([], []);
    var i := 0;
    while i < |skills|
      invariant 0 <= i <= |skills|
      invariant acc == VocabPass(skills[..i], FoundIn(lowered), PreferredIn(lowered))
    {
      assert skills[..i + 1][..i] == skills[..i];
      var skill := skills[i];
      var low := Lower(skill);
      AppendAbsentOne(acc.preferred, SkillTitle(skill));
      AppendAbsentOne(acc.required, SkillTitle(skill));
      if HasWord(lowered, low) {
        var ctx := Lower(ContextAround(lowered, low, 300));
        var title := SkillTitle(skill);
        if MentionsAny(ctx, PreferredCues) && !MentionsAny(ctx, RequiredCues) {
          if title !in acc.preferred {
            acc := acc.(preferred := acc.preferred + [title]);
          }
        } else if title !in acc.required {
          acc := acc.(required := acc.required + [title]);
        }
      }
      i := i + 1;
    }
    assert skills[..i] == skills;
  }

  /** The inner loop over the vocabulary for one lower-cased bullet. */
  method BulletSkillsLoop(bullet: string, start: SkillLists, skills: seq<string>) returns (acc: SkillLists)
    ensures acc == BulletSkills(bullet, start, skills)
  {
    acc := start;
    var m := 0;
    while m < |skills|
      invariant 0 <= m <= |skills|
      invariant acc == BulletSkills(bullet, start, skills[..m])
    {
      assert skills[..m + 1][..m] == skills[..m];
      var title := PlainTitle(skills[m]);
      if HasWord(bullet, Lower(skills[m])) && title !in acc.required && title !in acc.preferred {
        if MentionsAny(bullet, BulletPreferredWords) {
          acc := acc.(preferred := acc.preferred + [title]);
        } else {
          acc := acc.(required := acc.required + [title]);
        }
      }
      m := m + 1;
    }
    assert skills[..m] == skills;
  }

  /** The two loops of `_extract_skills_from_text` over a vocabulary, then `sorted(set(...))` of each list. */
  method ExtractSkillsLoop(text: string, skillBullets: string -> seq<string>, skills: seq<string>)
    returns (required: seq<string>, preferred: seq<string>)
    ensures SkillLists(required, preferred) == ExtractSkillsWith(text, skillBullets, skills)
  {
    var vocab := VocabLoop(Lower(text), skills);
    var bullets := skillBullets(text);
    var acc := vocab;
    var j := 0;
    while j < |bullets|
      invariant 0 <= j <= |bullets|
      invariant acc == BulletPass(vocab, bullets[..j], skills)
    {
      assert bullets[..j + 1][..j] == bullets[..j];
      acc := BulletSkillsLoop(Lower(bullets[j]), acc, skills);
      j := j + 1;
    }
    assert bullets[..j] == bullets;
    required := SortedSet(acc.required);
    preferred := SortedSet(acc.preferred);
  }
}
