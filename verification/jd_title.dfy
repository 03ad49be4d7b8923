/**
 * The role title the job-description parser infers when none is given:
 * a title-like line among the first ten, else the text after a label such
 * as "Position:" among the first fifteen, else a short line among the
 * first five, and "Job Position" when all of these fail.
 */
module JdTitle {
  import opened Wrappers
  import opened Text
  import opened Collections
  import opened ResumeParser
  import opened JdLlm

  // ---------------------------------------------------------------- lines

  /** `[line.strip() for line in text.split('\n') if line.strip()]` */
  function JdLines(text: string): seq<string> {
    NonBlankLines(Split(text, '\n'))
  }

  /** Every line is stripped and not empty. */
  predicate AllStripped(lines: seq<string>) {
    forall k :: 0 <= k < |lines| ==> lines[k] != "" && Strip(lines[k]) == lines[k]
  }

  lemma JdLinesStripped(text: string)
    ensures AllStripped(JdLines(text))
  {
    var lines := JdLines(text);
    forall k | 0 <= k < |lines| ensures Strip(lines[k]) == lines[k] {
      StripNoSpace(lines[k]);
    }
  }

  // ---------------------------------------------------------------- the word lists

  const Openers: seq<string> := ["we are", "about", "welcome", "join", "looking for", "seeking"]
  const Articles: seq<string> := ["the", "our", "this", "a", "an"]
  const CompanyWords: seq<string> := ["company", "corporation", "inc.", "llc"]
  const TitleKeywords: seq<string> := [
    "engineer", "developer", "manager", "analyst", "specialist",
    "director", "lead", "architect", "consultant", "coordinator",
    "administrator", "executive", "officer", "associate", "assistant",
    "designer", "scientist", "researcher", "programmer", "technician"]
  const Greetings: seq<string> := ["we", "welcome", "about", "join"]
  const LastResortGreetings: seq<string> := ["we", "welcome", "about", "join", "the", "our"]
  const Labels: seq<string> := ["position", "role", "title", "job", "opening"]

  predicate StartsWithAny(s: string, words: seq<string>) {
    exists k :: 0 <= k < |words| && StartsWith(s, words[k])
  }

  /** `^(the|our|this|a|an)\s+` */
  predicate ArticleFirst(low: string) {
    exists k :: 0 <= k < |Articles| && StartsWith(low, Articles[k]) && |Articles[k]| < |low| && IsSpace(low[|Articles[k]|])
  }

  /** Any of the patterns of lines that are not a title, on the lower-cased stripped line. */
  predicate NotTitle(low: string) {
    || StartsWithAny(low, Openers)
    || ArticleFirst(low)
    || MentionsAny(low, CompanyWords)
    || StartsWith(low, "http")
    || (low != [] && '0' <= low[0] <= '9')
  }

  /** Still no usable title. */
  predicate Bad(t: string) {
    t == "" || t == DefaultTitle
  }

  // ---------------------------------------------------------------- the first ten lines

  /**
   * A line of the first ten that is skipped: it matches a not-a-title
   * pattern, is longer than 80 characters, or is in capitals and longer
   * than 15.
   */
  predicate Skipped(line: string) {
    NotTitle(Strip(Lower(line))) || |line| > 80 || (IsUpper(line) && |line| > 15)
  }

  /** A line holding a title word and at most eight words. */
  predicate TitleWorded(line: string) {
    MentionsAny(Strip(Lower(line)), TitleKeywords) && |Words(line)| <= 8
  }

  /** The very first line taken as it is: at most six words, shorter than 60 characters, no greeting. */
  predicate ShortOpening(line: string) {
    |Words(line)| <= 6 && |line| < 60 && !MentionsAny(Strip(Lower(line)), Greetings)
  }

  /**
   * One of the first ten lines as a title, `first` for the very first:
   * a line that is not skipped is taken, stripped, when it holds a title
   * word or when it is a short opening line.
   */
  function Candidate(line: string, first: bool): (r: Option<string>)
    ensures r.Some? <==> !Skipped(line) && (TitleWorded(line) || (first && ShortOpening(line)))
    ensures r.Some? ==> r.value == Strip(line) && |Words(line)| <= 8 && |line| <= 80
  {
    if Skipped(line) then None
    else if TitleWorded(line) || (first && ShortOpening(line)) then Some(Strip(line))
    else None
  }

  function CandidateAt(): (nat, string) -> Option<string> {
    (i: nat, line: string) => Candidate(line, i == 0)
  }

  /** The loop over the first ten lines, the first of them tested as the very first line. */
  function FirstCandidate(lines: seq<string>): Option<string> {
    FirstHitFrom(Take(lines, 10), CandidateAt(), 0)
  }

  method FirstCandidateLoop(lines: seq<string>) returns (r: Option<string>)
    ensures r == FirstCandidate(lines)
  {
    r := FirstHitFromLoop(Take(lines, 10), CandidateAt());
  }

  /** A stripped text of at most eight words and 80 characters. */
  predicate TitleSized(t: string) {
    Strip(t) == t && |Words(t)| <= 8 && |t| <= 80
  }

  /** From the `i`-th of stripped lines on, a candidate is one of them and keeps the bounds the test checks. */
  lemma {:induction false} CandidateFromBounds(first: seq<string>, i: nat)
    requires AllStripped(first)
    requires FirstHitFrom(first, CandidateAt(), i).Some?
    ensures TitleSized(FirstHitFrom(first, CandidateAt(), i).value)
    decreases |first| - i
  {
    if Candidate(first[i], i == 0).None? {
      CandidateFromBounds(first, i + 1);
    }
  }

  /** A candidate among stripped lines is one of them, so it has the bounds the candidate test checks. */
  lemma FirstCandidateBounds(lines: seq<string>)
    requires FirstCandidate(lines).Some?
    requires AllStripped(lines)
    ensures TitleSized(FirstCandidate(lines).value)
  {
    var first := Take(lines, 10);
    assert forall k :: 0 <= k < |first| ==> first[k] == lines[k];
    CandidateFromBounds(first, 0);
  }

  // ---------------------------------------------------------------- labels

  /** A label word at `i` of the lower-cased line, followed by ':' or '-'. */
  predicate LabeledBy(low: string, i: int, w: string) {
    0 <= i && i + |w| < |low| && low[i..i + |w|] == w && (low[i + |w|] == ':' || low[i + |w|] == '-')
  }

  /** Where the text after a label at `i` starts, when one is there. */
  function LabelEnd(low: string, i: nat): (e: Option<nat>)
    ensures e.Some? <==> exists k :: 0 <= k < |Labels| && LabeledBy(low, i, Labels[k])
    ensures e.Some? ==> exists k :: 0 <= k < |Labels| && LabeledBy(low, i, Labels[k]) && e.value == i + |Labels[k]| + 1
  {
    if LabeledBy(low, i, Labels[0]) then Some(i + |Labels[0]| + 1)
    else if LabeledBy(low, i, Labels[1]) then Some(i + |Labels[1]| + 1)
    else if LabeledBy(low, i, Labels[2]) then Some(i + |Labels[2]| + 1)
    else if LabeledBy(low, i, Labels[3]) then Some(i + |Labels[3]| + 1)
    else if LabeledBy(low, i, Labels[4]) then Some(i + |Labels[4]| + 1)
    else None
  }

  /** A match of `(?:position|role|title|job|opening)[:\-]\s*(.+?)` starts at `i`: a label with text after it. */
  predicate MatchAt(low: string, i: nat) {
    LabelEnd(low, i).Some? && LabelEnd(low, i).value < |low|
  }

  function MatchIn(low: string): nat -> bool {
    (j: nat) => MatchAt(low, j)
  }

  /** The stripped text after a label, kept when it has at most eight words and fewer than 80 characters. */
  function TitleAfter(rest: string): (r: Option<string>)
    ensures r.Some? ==> r.value == Strip(rest) && Strip(r.value) == r.value && |Words(r.value)| <= 8 && |r.value| < 80
  {
    var t := Strip(rest);
    StripNoSpace(t);
    if |Words(t)| <= 8 && |t| < 80 then Some(t) else None
  }

  /** The title after the leftmost label that `re.search` finds, if any. */
  function LabelTitle(line: string): (r: Option<string>)
    ensures r.Some? ==> Strip(r.value) == r.value && |Words(r.value)| <= 8 && |r.value| < 80
  {
    var low := Lower(line);
    match FirstIndex(|low|, MatchIn(low), 0)
    case None => None
    case Some(j) =>
      match LabelEnd(low, j)
      case None => None
      case Some(e) => if e <= |line| then TitleAfter(line[e..]) else None
  }

  /** The title is read after the leftmost label that has text after it. */
  lemma LabelTitleLeftmost(line: string, j: nat)
    requires MatchAt(Lower(line), j) && forall m: nat :: m < j ==> !MatchAt(Lower(line), m)
    ensures LabelTitle(line) == TitleAfter(line[LabelEnd(Lower(line), j).value..])
  {
    LeftmostMatch(Lower(line), j);
  }

  /** The leftmost position with a match is the one the search finds. */
  lemma LeftmostMatch(low: string, j: nat)
    requires MatchAt(low, j) && forall m: nat :: m < j ==> !MatchAt(low, m)
    ensures FirstIndex(|low|, MatchIn(low), 0) == Some(j)
  {
    assert MatchIn(low)(j);
    assert forall m: nat :: 0 <= m < j ==> !MatchIn(low)(m);
    assert j < |low|;
    FirstIndexIs(|low|, MatchIn(low), 0, j);
  }

  /** Without a label that has text after it there is no title. */
  lemma LabelTitleNone(line: string)
    requires forall m: nat :: !MatchAt(Lower(line), m)
    ensures LabelTitle(line).None?
  {
    var low := Lower(line);
    FirstIndexLeast(|low|, MatchIn(low), 0);
  }

  function LabelReader(): string -> Option<string> {
    line => LabelTitle(line)
  }

  // ---------------------------------------------------------------- the first five lines

  /**
   * The last resort: a stripped line of at most six words, shorter than 60
   * characters, with none of the greetings, and holding a title word or at
   * most three words.
   */
  function LastResort(line: string): (r: Option<string>)
    ensures r.Some? ==> r.value == Strip(line) && |Words(r.value)| <= 6 && |r.value| < 60
    ensures r.Some? ==> !MentionsAny(Lower(r.value), LastResortGreetings)
  {
    var t := Strip(line);
    var low := Lower(t);
    if |Words(t)| <= 6 && |t| < 60 && !MentionsAny(low, LastResortGreetings) && (MentionsAny(low, TitleKeywords) || |Words(t)| <= 3)
    then Some(t) else None
  }

  function LastResortReader(): string -> Option<string> {
    line => LastResort(line)
  }

  // ---------------------------------------------------------------- the title

  /**
   * The title chosen from the results of the three searches: each in turn
   * while the title is still empty or "Job Position", and "Job Position"
   * at the end.
   */
  function ChooseTitle(candidate: Option<string>, labelled: Option<string>, short: Option<string>): (r: string)
    ensures r != ""
    ensures r == DefaultTitle || Some(r) == candidate || Some(r) == labelled || Some(r) == short
    ensures candidate.Some? && !Bad(candidate.value) ==> r == candidate.value
  {
    if candidate.Some? && !Bad(candidate.value) then candidate.value
    else if labelled.Some? && !Bad(labelled.value) then labelled.value
    else if short.Some? && !Bad(short.value) then short.value
    else DefaultTitle
  }

  /** The title inferred from the stripped non-blank lines of the text. */
  function InferTitle(lines: seq<string>): (r: string)
    ensures FirstCandidate(lines).Some? && !Bad(FirstCandidate(lines).value) ==> r == FirstCandidate(lines).value
  {
    ChooseTitle(FirstCandidate(lines), FirstHit(Take(lines, 15), LabelReader()), FirstHit(Take(lines, 5), LastResortReader()))
  }

  /** The three loops over the lines, as the parser runs them. */
  method InferTitleLoop(lines: seq<string>) returns (title: string)
    ensures title == InferTitle(lines)
  {
    var candidate := FirstCandidateLoop(lines);
    title := if candidate.Some? then candidate.value else "";
    if Bad(title) {
      var labelled := FirstHitLoop(Take(lines, 15), LabelReader());
      if labelled.Some? {
        title := labelled.value;
      }
      if Bad(title) {
        var short := FirstHitLoop(Take(lines, 5), LastResortReader());
        if short.Some? {
          title := short.value;
        }
        if Bad(title) {
          title := DefaultTitle;
        }
      }
    }
  }

  lemma LabelStageBounds(lines: seq<string>)
    requires FirstHit(Take(lines, 15), LabelReader()).Some?
    ensures var t := FirstHit(Take(lines, 15), LabelReader()).value;
            Strip(t) == t && |Words(t)| <= 8 && |t| < 80
  {
    var xs := Take(lines, 15);
    var k :| 0 <= k < |xs| && LabelReader()(xs[k]) == FirstHit(xs, LabelReader());
  }

  lemma LastStageBounds(lines: seq<string>)
    requires FirstHit(Take(lines, 5), LastResortReader()).Some?
    ensures var t := FirstHit(Take(lines, 5), LastResortReader()).value;
            Strip(t) == t && |Words(t)| <= 6 && |t| < 60
  {
    var xs := Take(lines, 5);
    var k :| 0 <= k < |xs| && LastResortReader()(xs[k]) == FirstHit(xs, LastResortReader());
    StripNoSpace(FirstHit(xs, LastResortReader()).value);
  }

  /**
   * The inferred title is never empty; taken from stripped lines it is
   * "Job Position" or a stripped text of at most eight words and 80
   * characters.
   */
  lemma InferTitleSpec(lines: seq<string>)
    ensures InferTitle(lines) != ""
    ensures AllStripped(lines) ==> InferTitle(lines) == DefaultTitle || TitleSized(InferTitle(lines))
  {
    var c := FirstCandidate(lines);
    var l := FirstHit(Take(lines, 15), LabelReader());
    var f := FirstHit(Take(lines, 5), LastResortReader());
    if AllStripped(lines) {
      if c.Some? {
        FirstCandidateBounds(lines);
      }
      if l.Some? {
        LabelStageBounds(lines);
      }
      if f.Some? {
        LastStageBounds(lines);
      }
      ChooseTitleSized(c, l, f);
    }
  }

  lemma ChooseTitleSized(c: Option<string>, l: Option<string>, f: Option<string>)
    requires c.Some? ==> TitleSized(c.value)
    requires l.Some? ==> TitleSized(l.value)
    requires f.Some? ==> TitleSized(f.value)
    ensures ChooseTitle(c, l, f) == DefaultTitle || TitleSized(ChooseTitle(c, l, f))
  {
  }

  lemma FirstCandidateFirst(lines: seq<string>)
    requires lines != [] && CandidateAt()(0, lines[0]).Some?
    ensures FirstCandidate(lines) == CandidateAt()(0, lines[0])
  {
    var first := Take(lines, 10);
    assert first[0] == lines[0];
    FirstHitFromFirst(first, CandidateAt());
  }
}
