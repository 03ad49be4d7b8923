/**
 * The text path of the job-description parser: a blank text is refused,
 * the language model is tried first, and otherwise each field of the
 * description is filled in turn by the rule-based extractors, with the
 * fallbacks that top up a list that came out short.
 */
module JdParser {
  import opened Wrappers
  import opened Text
  import opened Collections
  import opened Schemas
  import opened LlmReply
  import ResumeParser
  import opened JdLlm
  import opened JdTitle
  import opened JdSkills
  import opened JdSections
  import opened JdPostprocess

  const EmptyJd := "Job description text is empty"
  const NoJdContent := "No content found in job description"

  // ---------------------------------------------------------------- the keyword lists

  const RespKeywords: seq<string> := [
    "responsibilities", "what you will do", "key responsibilities",
    "duties", "what you'll do", "you will", "you'll be responsible",
    "key duties", "main responsibilities", "role", "about the role",
    "what you'll be doing", "you'll", "you will be"]
  const ReqKeywords: seq<string> := [
    "requirements", "qualifications", "required qualifications",
    "must have", "required", "minimum requirements", "we require",
    "you must have", "you need", "essential", "mandatory", "what we need",
    "candidates must", "candidate must", "you should have"]
  const ReqBulletKeywords: seq<string> := [
    "experience", "years", "degree", "bachelor", "master", "proven", "ability", "skill", "knowledge", "familiar"]
  const PrefKeywords: seq<string> := [
    "preferred", "nice to have", "preferred qualifications", "bonus", "pluses", "desired", "would be nice"]
  const SkillKeywords: seq<string> := [
    "skills", "technical skills", "competencies", "technologies", "technologies we use",
    "required skills", "preferred skills", "qualifications", "tools", "software"]
  const CapitalStopWords: seq<string> := ["The", "This", "That", "With", "From"]

  /**
   * The word lists of the parser: the section headings of responsibilities,
   * requirements, preferred qualifications and skills, the words of a
   * requirement bullet, the capitalised words that are not keywords, and the skill vocabulary.
   */
  datatype Headings = Headings(
    duties: seq<string>, requirements: seq<string>, requirementWords: seq<string>,
    preferred: seq<string>, skills: seq<string>, stopWords: seq<string>, vocabulary: seq<string>)

  const JdHeadings := Headings(RespKeywords, ReqKeywords, ReqBulletKeywords, PrefKeywords, SkillKeywords, CapitalStopWords, Vocabulary)

  // ---------------------------------------------------------------- topping up a short list

  /**
   * The aggressive fallback shared by responsibilities and requirements: a
   * list of fewer than three items gets up to ten of the bullets `keep`
   * accepts, and the result is deduplicated, first occurrences kept.
   */
  function TopUp(found: seq<string>, bullets: seq<string>, keep: string -> bool): seq<string> {
    var extra := Filter(bullets, keep);
    if |found| < 3 && extra != [] then Dedup(found + Take(extra, 10)) else found
  }

  /**
   * A list of three or more is left alone; nothing found is lost, and a
   * duplicate-free list keeps its order at the front; everything added is
   * an accepted bullet, at most ten of them; a list that was topped up has
   * no duplicates.
   */
  lemma TopUpSpec(found: seq<string>, bullets: seq<string>, keep: string -> bool)
    ensures |found| >= 3 ==> TopUp(found, bullets, keep) == found
    ensures forall x :: x in found ==> x in TopUp(found, bullets, keep)
    ensures NoDuplicates(found) ==> found <= TopUp(found, bullets, keep)
    ensures forall x :: x in TopUp(found, bullets, keep) ==> x in found || (x in bullets && keep(x))
    ensures |TopUp(found, bullets, keep)| <= |found| + 10
    ensures |found| < 3 && (exists x :: x in bullets && keep(x)) ==> NoDuplicates(TopUp(found, bullets, keep))
  {
    var extra := Filter(bullets, keep);
    FilterSpec(bullets, keep);
    if |found| < 3 && extra != [] {
      var added := Take(extra, 10);
      assert forall x :: x in added ==> x in extra;
      DedupPrefix(found, added);
      if NoDuplicates(found) {
        DedupDistinct(found);
      }
    }
  }

  /** The fallback step: the raw bullet matches are cleaned, filtered and added when the list is short. */
  method TopUpStep(found: seq<string>, raw: seq<string>, keep: string -> bool) returns (items: seq<string>)
    ensures items == TopUp(found, ExtractAllBulletPoints(raw), keep)
  {
    items := found;
    if |items| < 3 {
      var all := ExtractAllBulletPointsLoop(raw);
      var extra := Filter(all, keep);
      if extra != [] {
        items := Dedup(items + Take(extra, 10));
      }
    }
  }

  // ---------------------------------------------------------------- responsibilities

  /** A responsibility-like bullet: an action verb, more than 20 characters, and not already a requirement. */
  function DutyBullet(reqs: seq<string>): string -> bool {
    b => MentionsAny(Lower(b), ResponsibilityVerbs) && |b| > 20 && b !in reqs
  }

  /** The section under a responsibilities heading, else the items of the duty patterns. */
  function DutiesFound(text: string, h: Headings, rx: JdPatterns): seq<string> {
    var s := ExtractSection(text, h.duties, rx);
    if s == [] then ExtractByPatterns(text, rx) else s
  }

  /** Responsibility items are stripped and longer than 10 characters. */
  predicate DutyItem(x: string) {
    Trimmed(x) && |x| > 10
  }

  lemma DutiesFoundShape(text: string, h: Headings, rx: JdPatterns)
    ensures forall x :: x in DutiesFound(text, h, rx) ==> DutyItem(x)
  {
    ExtractSectionShape(text, h.duties, rx);
    ExtractByPatternsSpec(text, rx);
  }

  /** `jd.responsibilities` after the three steps; `reqs` is the requirement list the description holds at that point. */
  function Responsibilities(text: string, reqs: seq<string>, h: Headings, rx: JdPatterns): seq<string> {
    TopUp(DutiesFound(text, h, rx), ExtractAllBulletPoints(rx.allBullets(text)), DutyBullet(reqs))
  }

  /**
   * Every responsibility is stripped and longer than 10 characters; it was
   * found under a heading or by the duty patterns, or it is a cleaned bullet
   * with an action verb that is not among `reqs`.
   */
  lemma ResponsibilitiesSpec(text: string, reqs: seq<string>, h: Headings, rx: JdPatterns)
    ensures forall x :: x in Responsibilities(text, reqs, h, rx) ==> DutyItem(x)
    ensures forall x :: x in Responsibilities(text, reqs, h, rx) ==>
              x in DutiesFound(text, h, rx)
              || (x in ExtractAllBulletPoints(rx.allBullets(text)) && MentionsAny(Lower(x), ResponsibilityVerbs) && x !in reqs)
  {
    var bullets := ExtractAllBulletPoints(rx.allBullets(text));
    TopUpSpec(DutiesFound(text, h, rx), bullets, DutyBullet(reqs));
    DutiesFoundShape(text, h, rx);
    ExtractAllBulletPointsSpec(rx.allBullets(text));
  }

  /** The heading and pattern steps for responsibilities. */
  method DutiesStep(text: string, h: Headings, rx: JdPatterns) returns (items: seq<string>)
    ensures items == DutiesFound(text, h, rx)
  {
    items := ExtractSectionLoop(text, h.duties, rx);
    if items == [] {
      items := ExtractByPatternsLoop(text, rx);
    }
  }

  /** The responsibility steps of `_parse_text`. */
  method ResponsibilitiesStep(text: string, reqs: seq<string>, h: Headings, rx: JdPatterns) returns (items: seq<string>)
    ensures items == Responsibilities(text, reqs, h, rx)
  {
    var found := DutiesStep(text, h, rx);
    items := TopUpStep(found, rx.allBullets(text), DutyBullet(reqs));
  }

  // ---------------------------------------------------------------- requirements

  /** A requirement-like bullet: a requirement cue and more than 20 characters. */
  function RequirementBullet(): string -> bool {
    b => MentionsAny(Lower(b), RequirementCues) && |b| > 20
  }

  /** The section under a requirements heading, else the bullets mentioning a requirement word. */
  function RequirementsFound(text: string, h: Headings, rx: JdPatterns): seq<string> {
    var s := ExtractSection(text, h.requirements, rx);
    if s == [] then ExtractBulletPoints(rx.bullets(text), h.requirementWords) else s
  }

  /** Requirement items are stripped and longer than 15 characters. */
  predicate RequirementItem(x: string) {
    Trimmed(x) && |x| > 15
  }

  lemma RequirementsFoundShape(text: string, h: Headings, rx: JdPatterns)
    ensures forall x :: x in RequirementsFound(text, h, rx) ==> RequirementItem(x)
  {
    ExtractSectionShape(text, h.requirements, rx);
    ExtractBulletPointsSpec(rx.bullets(text), h.requirementWords);
  }

  /** `jd.requirements` after the three steps. */
  function Requirements(text: string, h: Headings, rx: JdPatterns): seq<string> {
    TopUp(RequirementsFound(text, h, rx), ExtractAllBulletPoints(rx.allBullets(text)), RequirementBullet())
  }

  /**
   * Every requirement is stripped and longer than 15 characters; it was
   * found under a heading or as a bullet with a requirement word, or it is a
   * cleaned bullet with a requirement cue.
   */
  lemma RequirementsSpec(text: string, h: Headings, rx: JdPatterns)
    ensures forall x :: x in Requirements(text, h, rx) ==> RequirementItem(x)
    ensures forall x :: x in Requirements(text, h, rx) ==>
              x in RequirementsFound(text, h, rx)
              || (x in ExtractAllBulletPoints(rx.allBullets(text)) && MentionsAny(Lower(x), RequirementCues))
  {
    var bullets := ExtractAllBulletPoints(rx.allBullets(text));
    TopUpSpec(RequirementsFound(text, h, rx), bullets, RequirementBullet());
    RequirementsFoundShape(text, h, rx);
    ExtractAllBulletPointsSpec(rx.allBullets(text));
  }

  /** The heading and bullet-word steps for requirements. */
  method RequirementsFoundStep(text: string, h: Headings, rx: JdPatterns) returns (items: seq<string>)
    ensures items == RequirementsFound(text, h, rx)
  {
    items := ExtractSectionLoop(text, h.requirements, rx);
    if items == [] {
      items := ExtractBulletPointsLoop(rx.bullets(text), h.requirementWords);
    }
  }

  /** The requirement steps of `_parse_text`. */
  method RequirementsStep(text: string, h: Headings, rx: JdPatterns) returns (items: seq<string>)
    ensures items == Requirements(text, h, rx)
  {
    var found := RequirementsFoundStep(text, h, rx);
    items := TopUpStep(found, rx.allBullets(text), RequirementBullet());
  }

  // ---------------------------------------------------------------- skills

  /** `_extract_skills_from_text` over the vocabulary and the bullet pattern. */
  function SkillsOf(text: string, vocab: seq<string>, rx: JdPatterns): SkillLists {
    ExtractSkillsWith(text, rx.skillBullets, vocab)
  }

  /** Both lists free of duplicates and holding only names of vocabulary skills. */
  predicate SkillListsOk(s: SkillLists, vocab: seq<string>) {
    && NoDuplicates(s.required) && NoDuplicates(s.preferred)
    && (forall x :: x in s.required ==> SkillNameOf(vocab, x))
    && (forall x :: x in s.preferred ==> SkillNameOf(vocab, x))
  }

  lemma SortedNoDuplicates(s: seq<string>)
    requires StrictlySorted(s)
    ensures NoDuplicates(s)
  {
    forall i, j | 0 <= i < j < |s| ensures s[i] != s[j] {
      StrLessIrreflexive(s[i]);
    }
  }

  lemma SkillsOfOk(text: string, vocab: seq<string>, rx: JdPatterns)
    ensures SkillListsOk(SkillsOf(text, vocab, rx), vocab)
  {
    var r := SkillsOf(text, vocab, rx);
    ExtractSkillsSpec(text, rx.skillBullets, vocab);
    SortedNoDuplicates(r.required);
    SortedNoDuplicates(r.preferred);
  }

  /** The skills of the skills section when it has a body, else those of the whole text. */
  function SkillsFirst(text: string, h: Headings, rx: JdPatterns): SkillLists {
    var section := SectionText(text, h.skills, rx);
    if section.Some? && section.value != "" then SkillsOf(section.value, h.vocabulary, rx)
    else SkillsOf(text, h.vocabulary, rx)
  }

  /** With no skill at all, those of the joined requirements, when there are any. */
  function SkillsFromRequirements(s: SkillLists, reqs: seq<string>, vocab: seq<string>, rx: JdPatterns): SkillLists {
    var reqText := Join(reqs, " ");
    if s.required == [] && s.preferred == [] && reqText != "" then SkillsOf(reqText, vocab, rx) else s
  }

  /** With fewer than three required skills, those of the joined bullets are merged in, each list without duplicates. */
  function SkillsTopUp(s: SkillLists, bullets: seq<string>, vocab: seq<string>, rx: JdPatterns): SkillLists {
    var bulletText := Join(bullets, " ");
    if |s.required| < 3 && bulletText != "" then
      var more := SkillsOf(bulletText, vocab, rx);
      SkillLists(AppendAbsent(s.required, more.required), AppendAbsent(s.preferred, more.preferred))
    else s
  }

  /** `jd.required_skills` and `jd.preferred_skills` after the three steps; `reqs` are the requirements just found. */
  function Skills(text: string, reqs: seq<string>, h: Headings, rx: JdPatterns): SkillLists {
    var s := SkillsFromRequirements(SkillsFirst(text, h, rx), reqs, h.vocabulary, rx);
    SkillsTopUp(s, ExtractAllBulletPoints(rx.allBullets(text)), h.vocabulary, rx)
  }

  /** Merging keeps both lists duplicate-free and made of vocabulary names, and keeps what was there in front. */
  lemma SkillsTopUpSpec(s: SkillLists, bullets: seq<string>, vocab: seq<string>, rx: JdPatterns)
    requires SkillListsOk(s, vocab)
    ensures SkillListsOk(SkillsTopUp(s, bullets, vocab, rx), vocab)
    ensures s.required <= SkillsTopUp(s, bullets, vocab, rx).required && s.preferred <= SkillsTopUp(s, bullets, vocab, rx).preferred
    ensures |s.required| >= 3 ==> SkillsTopUp(s, bullets, vocab, rx) == s
  {
    var bulletText := Join(bullets, " ");
    if |s.required| < 3 && bulletText != "" {
      var more := SkillsOf(bulletText, vocab, rx);
      SkillsOfOk(bulletText, vocab, rx);
      AppendAbsentSpec(s.required, more.required);
      AppendAbsentSpec(s.preferred, more.preferred);
    }
  }

  lemma SkillsFirstOk(text: string, h: Headings, rx: JdPatterns)
    ensures SkillListsOk(SkillsFirst(text, h, rx), h.vocabulary)
  {
    var section := SectionText(text, h.skills, rx);
    if section.Some? && section.value != "" {
      SkillsOfOk(section.value, h.vocabulary, rx);
    } else {
      SkillsOfOk(text, h.vocabulary, rx);
    }
  }

  /**
   * Both skill lists are free of duplicates and hold only names of
   * vocabulary skills; when the first search finds three required skills
   * or more, nothing else is added.
   */
  lemma SkillsSpec(text: string, reqs: seq<string>, h: Headings, rx: JdPatterns)
    ensures SkillListsOk(Skills(text, reqs, h, rx), h.vocabulary)
    ensures |SkillsFirst(text, h, rx).required| >= 3 ==> Skills(text, reqs, h, rx) == SkillsFirst(text, h, rx)
  {
    var first := SkillsFirst(text, h, rx);
    SkillsFirstOk(text, h, rx);
    var s := SkillsFromRequirements(first, reqs, h.vocabulary, rx);
    if s != first {
      SkillsOfOk(Join(reqs, " "), h.vocabulary, rx);
    }
    SkillsTopUpSpec(s, ExtractAllBulletPoints(rx.allBullets(text)), h.vocabulary, rx);
  }

  /** The skill steps of `_parse_text`, the merge written as the two loops. */
  method SkillsStep(text: string, reqs: seq<string>, h: Headings, rx: JdPatterns) returns (required: seq<string>, preferred: seq<string>)
    ensures SkillLists(required, preferred) == Skills(text, reqs, h, rx)
  {
    var section := SectionText(text, h.skills, rx);
    if section.Some? && section.value != "" {
      required, preferred := ExtractSkillsLoop(section.value, rx.skillBullets, h.vocabulary);
    } else {
      required, preferred := ExtractSkillsLoop(text, rx.skillBullets, h.vocabulary);
    }
    if required == [] && preferred == [] {
      var reqText := Join(reqs, " ");
      if reqText != "" {
        required, preferred := ExtractSkillsLoop(reqText, rx.skillBullets, h.vocabulary);
      }
    }
    if |required| < 3 {
      var bullets := ExtractAllBulletPointsLoop(rx.allBullets(text));
      var bulletText := Join(bullets, " ");
      if bulletText != "" {
        var moreRequired, morePreferred := ExtractSkillsLoop(bulletText, rx.skillBullets, h.vocabulary);
        required := AppendAbsentLoop(required, moreRequired);
        preferred := AppendAbsentLoop(preferred, morePreferred);
      }
    }
  }

  // ---------------------------------------------------------------- keywords

  /** A capitalised phrase is kept when it is longer than three characters and not a stop word. */
  function CapitalKept(stopWords: seq<string>): string -> bool {
    kw => |kw| > 3 && kw !in stopWords
  }

  /** Everything `_extract_keywords` collects before the set: the pattern matches on the lower-cased text, then the kept capitalised phrases. */
  function KeywordPool(text: string, h: Headings, rx: JdPatterns): seq<string> {
    rx.keywordMatches(Lower(text)) + Filter(rx.capitalized(text), CapitalKept(h.stopWords))
  }

  function Distinct(pool: seq<string>): set<string> {
    set x | x in pool
  }

  /**
   * `list(set(pool))[:50]` whatever order the set iterates in: distinct
   * items of the pool, as many as it has distinct ones up to fifty.
   */
  predicate KeywordsOf(kws: seq<string>, pool: seq<string>) {
    && NoDuplicates(kws)
    && (forall x :: x in kws ==> x in pool)
    && |kws| == Min(|Distinct(pool)|, 50)
  }

  /** `_extract_keywords` */
  method ExtractKeywords(text: string, h: Headings, rx: JdPatterns) returns (kws: seq<string>)
    ensures KeywordsOf(kws, KeywordPool(text, h, rx))
  {
    var matches := rx.keywordMatches(Lower(text));
    var capitalized := Filter(rx.capitalized(text), CapitalKept(h.stopWords));
    var pool := matches + capitalized;
    var all := ListOf(Distinct(pool));
    kws := Take(all, 50);
    assert forall x :: x in kws ==> x in all;
    NoDuplicatesPrefix(all, |kws|);
  }

  /** At most fifty keywords, and all of the pool when it has no more than fifty distinct ones. */
  lemma KeywordsCover(kws: seq<string>, pool: seq<string>)
    requires KeywordsOf(kws, pool)
    ensures |kws| <= 50
    ensures |Distinct(pool)| <= 50 ==> forall x :: x in pool ==> x in kws
  {
    if |Distinct(pool)| <= 50 {
      DistinctCard(kws);
      var have := Distinct(kws);
      assert have <= Distinct(pool);
      if x :| x in pool && x !in kws {
        assert have <= Distinct(pool) - {x};
        SubsetCard(have, Distinct(pool) - {x});
      }
    }
  }

  /** The capitalised phrases kept are those longer than three characters that are not stop words. */
  lemma KeywordPoolCapitals(text: string, h: Headings, rx: JdPatterns)
    ensures forall x :: x in rx.capitalized(text) && |x| > 3 && x !in h.stopWords ==> x in KeywordPool(text, h, rx)
    ensures forall x :: x in KeywordPool(text, h, rx) ==>
              x in rx.keywordMatches(Lower(text)) || (x in rx.capitalized(text) && |x| > 3 && x !in h.stopWords)
  {
    FilterSpec(rx.capitalized(text), CapitalKept(h.stopWords));
  }

  // ---------------------------------------------------------------- the description

  /** The description the rule-based steps start from: a fresh one, or the given one with its raw text set when it has none. */
  function StartJd(text: string, jd0: Option<JobDescription>): JobDescription {
    match jd0
    case None => NewJobDescription("").(rawText := Some(text))
    case Some(j) => if j.rawText.None? || j.rawText == Some("") then j.(rawText := Some(text)) else j
  }

  /** The role title: the given one, or the one inferred from the lines when it is empty. */
  function RoleTitle(jd: JobDescription, text: string): string {
    if jd.roleTitle == "" then InferTitle(JdLines(text)) else jd.roleTitle
  }

  /** The title step of `_parse_text`: the inference runs only when the description has no title. */
  method TitleStep(jd: JobDescription, text: string) returns (title: string)
    ensures title == RoleTitle(jd, text)
  {
    title := jd.roleTitle;
    if title == "" {
      title := InferTitleLoop(JdLines(text));
    }
  }

  /** The rule-based description, given the keywords the set happened to yield. */
  function RegexJd(text: string, jd0: Option<JobDescription>, h: Headings, rx: JdPatterns, keywords: seq<string>): JobDescription {
    var jd := StartJd(text, jd0);
    var reqs := Requirements(text, h, rx);
    var skills := Skills(text, reqs, h, rx);
    jd.(roleTitle := RoleTitle(jd, text),
        responsibilities := Responsibilities(text, jd.requirements, h, rx),
        requirements := reqs,
        preferredQualifications := ExtractSection(text, h.preferred, rx),
        requiredSkills := skills.required,
        preferredSkills := skills.preferred,
        keywords := keywords)
  }

  /** What the language-model path yields: nothing unless it is asked for and its reply reads as a description. */
  function LlmJd(text: string, useLlm: bool, reply: Option<string>, decode: string -> Option<Json>): Option<JobDescription> {
    if useLlm then JdLlm.JdLlm(text, reply, decode) else None
  }

  /** The rule-based path is taken: the text is not blank and the model gave nothing usable. */
  predicate RegexPath(text: string, useLlm: bool, reply: Option<string>, decode: string -> Option<Json>) {
    !IsBlank(text) && LlmJd(text, useLlm, reply, decode).None?
  }

  /**
   * The rule-based steps of `_parse_text`, in the order the parser runs them,
   * each writing one field of the description.
   */
  method RegexParse(text: string, jd0: Option<JobDescription>, h: Headings, rx: JdPatterns) returns (jd: JobDescription)
    ensures jd == RegexJd(text, jd0, h, rx, jd.keywords)
    ensures KeywordsOf(jd.keywords, KeywordPool(text, h, rx))
  {
    jd := StartJd(text, jd0);
    var title := TitleStep(jd, text);
    jd := jd.(roleTitle := title);
    var duties := ResponsibilitiesStep(text, jd.requirements, h, rx);
    jd := jd.(responsibilities := duties);
    var reqs := RequirementsStep(text, h, rx);
    jd := jd.(requirements := reqs);
    var preferred := ExtractSectionLoop(text, h.preferred, rx);
    jd := jd.(preferredQualifications := preferred);
    var requiredSkills, preferredSkills := SkillsStep(text, reqs, h, rx);
    jd := jd.(requiredSkills := requiredSkills, preferredSkills := preferredSkills);
    var kws := ExtractKeywords(text, h, rx);
    jd := jd.(keywords := kws);
  }

  /** The rule-based path of `_parse_text`: a text without a non-blank line is refused. */
  method RuleBased(text: string, jd0: Option<JobDescription>, h: Headings, rx: JdPatterns) returns (r: Result<JobDescription>)
    ensures JdLines(text) == [] ==> r == Failure(NoJdContent)
    ensures JdLines(text) != [] ==> r.Success? && r.value == RegexJd(text, jd0, h, rx, r.value.keywords)
    ensures r.Success? ==> KeywordsOf(r.value.keywords, KeywordPool(text, h, rx))
  {
    var lines := JdLines(text);
    if lines != [] {
      var jd := RegexParse(text, jd0, h, rx);
      r := Success(jd);
    } else {
      r := Failure(NoJdContent);
    }
  }

  /**
   * `_parse_text` over the word lists `h`; `reply` is the model's reply and
   * `rx` the regular expressions. A blank text is refused; a usable reply
   * from the model wins; otherwise the rule-based description is built, its
   * keywords in the order the set yields them.
   */
  method ParseText(text: string, jd0: Option<JobDescription>, useLlm: bool, reply: Option<string>,
                   decode: string -> Option<Json>, h: Headings, rx: JdPatterns) returns (r: Result<JobDescription>)
    ensures IsBlank(text) ==> r == Failure(EmptyJd)
    ensures !IsBlank(text) && LlmJd(text, useLlm, reply, decode).Some? ==> r == Success(LlmJd(text, useLlm, reply, decode).value)
    ensures RegexPath(text, useLlm, reply, decode) && JdLines(text) == [] ==> r == Failure(NoJdContent)
    ensures RegexPath(text, useLlm, reply, decode) && JdLines(text) != [] ==>
              r.Success? && r.value == RegexJd(text, jd0, h, rx, r.value.keywords)
    ensures RegexPath(text, useLlm, reply, decode) && r.Success? ==> KeywordsOf(r.value.keywords, KeywordPool(text, h, rx))
  {
    if IsBlank(text) {
      return Failure(EmptyJd);
    }
    var parsed := LlmJd(text, useLlm, reply, decode);
    if parsed.Some? {
      return Success(parsed.value);
    }
    r := RuleBased(text, jd0, h, rx);
  }

  /** `_parse_text` as the parser runs it, with its own word lists. */
  method ParseJdText(text: string, jd0: Option<JobDescription>, useLlm: bool, reply: Option<string>,
                     decode: string -> Option<Json>, rx: JdPatterns) returns (r: Result<JobDescription>)
    ensures IsBlank(text) ==> r == Failure(EmptyJd)
    ensures !IsBlank(text) && LlmJd(text, useLlm, reply, decode).Some? ==> r == Success(LlmJd(text, useLlm, reply, decode).value)
    ensures RegexPath(text, useLlm, reply, decode) ==>
              r.Success? && r.value == RegexJd(text, jd0, JdHeadings, rx, r.value.keywords)
              && KeywordsOf(r.value.keywords, KeywordPool(text, JdHeadings, rx))
  {
    r := ParseText(text, jd0, useLlm, reply, decode, JdHeadings, rx);
    if !IsBlank(text) {
      NoContentUnreachable(text);
    }
  }

  // ---------------------------------------------------------------- what the parser promises

  lemma MessagesDiffer()
    ensures EmptyJd != NoJdContent
  {
    assert |EmptyJd| == 29 && |NoJdContent| == 35;
  }

  /** "No content found in job description" is never raised: a text that is not blank has a non-blank line. */
  lemma NoContentUnreachable(text: string)
    ensures JdLines(text) != [] <==> !IsBlank(text)
  {
    if !IsBlank(text) {
      ResumeParser.NonBlankText(text);
    } else {
      ResumeParser.BlankText(text);
    }
  }

  /**
   * The rule-based title is never empty: a given title is kept, and an
   * inferred one is "Job Position" or a stripped text of at most eight words
   * and 80 characters.
   */
  lemma RoleTitleSpec(text: string, jd0: Option<JobDescription>)
    ensures RoleTitle(StartJd(text, jd0), text) != ""
    ensures jd0.Some? && jd0.value.roleTitle != "" ==> RoleTitle(StartJd(text, jd0), text) == jd0.value.roleTitle
    ensures (jd0.None? || jd0.value.roleTitle == "") ==>
              RoleTitle(StartJd(text, jd0), text) == DefaultTitle || TitleSized(RoleTitle(StartJd(text, jd0), text))
  {
    InferTitleSpec(JdLines(text));
    JdLinesStripped(text);
  }

  /**
   * The raw text is the parsed text unless the given description already had
   * one, and every other field is the given description's, or empty.
   */
  lemma StartJdSpec(text: string, jd0: Option<JobDescription>)
    ensures var jd := StartJd(text, jd0);
            && (jd0.None? || jd0.value.rawText.None? || jd0.value.rawText == Some("") ==> jd.rawText == Some(text))
            && (jd0.Some? && jd0.value.rawText.Some? && jd0.value.rawText != Some("") ==> jd.rawText == jd0.value.rawText)
            && (jd0.Some? ==> jd.(rawText := jd0.value.rawText) == jd0.value)
            && (jd0.None? ==> jd.(rawText := None) == NewJobDescription(""))
  {
  }

  /** A rule-based description always has a title. */
  lemma RegexJdTitled(text: string, jd0: Option<JobDescription>, h: Headings, rx: JdPatterns, keywords: seq<string>)
    ensures RegexJd(text, jd0, h, rx, keywords).roleTitle != ""
  {
    RoleTitleSpec(text, jd0);
  }

  /** A rule-based description of a text that is not blank keeps a raw text that is not empty. */
  lemma RegexJdKeepsText(text: string, jd0: Option<JobDescription>, h: Headings, rx: JdPatterns, keywords: seq<string>)
    requires !IsBlank(text)
    ensures RegexJd(text, jd0, h, rx, keywords).rawText.Some? && RegexJd(text, jd0, h, rx, keywords).rawText.value != ""
  {
    StartJdKeepsText(text, jd0);
    assert RegexJd(text, jd0, h, rx, keywords).rawText == StartJd(text, jd0).rawText;
  }

  lemma StartJdKeepsText(text: string, jd0: Option<JobDescription>)
    requires !IsBlank(text)
    ensures StartJd(text, jd0).rawText.Some? && StartJd(text, jd0).rawText.value != ""
  {
    assert text != "";
  }
}
