/**
 * ATS-style scoring of a résumé against a job description: keyword overlap,
 * skill overlap and section completeness, combined 40/40/20 into one
 * percentage.
 */
module AtsScorer {
  import opened Wrappers
  import opened Text
  import opened Collections
  import opened Schemas

  /** The fixed stop-word set excluded from requirement keywords. */
  const StopWords: set<string> := {
    "the", "a", "an", "and", "or", "but", "in", "on", "at", "to", "for",
    "of", "with", "by", "from", "as", "is", "was", "are", "were", "be",
    "been", "being", "have", "has", "had", "do", "does", "did", "will",
    "would", "should", "could", "may", "might", "must", "can", "this",
    "that", "these", "those", "i", "you", "he", "she", "it", "we", "they"
  }

  predicate InPercentRange(x: real) {
    0.0 <= x <= 100.0
  }

  /** The final score: 40% keywords, 40% skills, 20% completeness. */
  function AtsScore(b: ScoreBreakdown): (r: real)
    ensures InPercentRange(b.keywordScore) && InPercentRange(b.skillScore) && InPercentRange(b.completenessScore)
            ==> InPercentRange(r)
    ensures b.keywordScore == b.skillScore == b.completenessScore ==> r == b.keywordScore
  {
    b.keywordScore * 0.4 + b.skillScore * 0.4 + b.completenessScore * 0.2
  }

  // ---------------------------------------------------------------- résumé text

  function EntryTexts(e: ExperienceEntry): seq<string> {
    [e.title + " " + e.company] + BulletTexts(e.bullets)
  }

  function ExperienceTexts(es: seq<ExperienceEntry>): seq<string> {
    if es == [] then [] else ExperienceTexts(es[..|es| - 1]) + EntryTexts(es[|es| - 1])
  }

  function EducationTexts(ed: seq<EducationEntry>): seq<string> {
    if ed == [] then [] else EducationTexts(ed[..|ed| - 1]) + [ed[|ed| - 1].degree + " " + ed[|ed| - 1].institution]
  }

  function SummaryTexts(r: ResumeData): seq<string> {
    if Truthy(r.summary) then [r.summary.value] else []
  }

  /** The pieces joined into the résumé text, in order. */
  function ResumeTexts(r: ResumeData): seq<string> {
    SummaryTexts(r) + ExperienceTexts(r.experience) + EducationTexts(r.education) + r.skills
  }

  /** The résumé's summary, headings, bullets, education lines and skills joined with spaces. */
  method ExtractResumeText(r: ResumeData) returns (t: string)
    ensures t == Join(ResumeTexts(r), " ")
  {
    var texts: seq<string> := [];
    if r.summary.Some? && r.summary.value != "" {
      texts := texts + [r.summary.value];
    }
    assert texts == SummaryTexts(r);
    var headings := AppendExperienceTexts(r.experience);
    texts := texts + headings;
    ghost var before := texts;
    var k := 0;
    while k < |r.education|
      invariant 0 <= k <= |r.education|
      invariant texts == before + EducationTexts(r.education[..k])
    {
      assert r.education[..k + 1][..k] == r.education[..k];
      texts := texts + [r.education[k].degree + " " + r.education[k].institution];
      k := k + 1;
    }
    assert r.education[..k] == r.education;
    texts := texts + r.skills;
    t := Join(texts, " ");
  }

  /** The experience part of `_extract_resume_text`: each heading followed by its bullets. */
  method AppendExperienceTexts(es: seq<ExperienceEntry>) returns (texts: seq<string>)
    ensures texts == ExperienceTexts(es)
  {
    texts := [];
    var i := 0;
    while i < |es|
      invariant 0 <= i <= |es|
      invariant texts == ExperienceTexts(es[..i])
    {
      var e := es[i];
      var bullets := AppendBulletTexts(e.bullets);
      texts := texts + ([e.title + " " + e.company] + bullets);
      ExperienceTextsStep(es, i);
      i := i + 1;
    }
    assert es[..i] == es;
  }

  /** The bullets of one entry, in order. */
  method AppendBulletTexts(bs: seq<BulletPoint>) returns (texts: seq<string>)
    ensures texts == BulletTexts(bs)
  {
    texts := [];
    var j := 0;
    while j < |bs|
      invariant 0 <= j <= |bs|
      invariant texts == BulletTexts(bs[..j])
    {
      BulletTextsStep(bs, j);
      texts := texts + [bs[j].text];
      j := j + 1;
    }
    assert bs[..j] == bs;
  }

  lemma BulletTextsStep(bs: seq<BulletPoint>, j: int)
    requires 0 <= j < |bs|
    ensures BulletTexts(bs[..j + 1]) == BulletTexts(bs[..j]) + [bs[j].text]
  {
    assert bs[..j + 1][..j] == bs[..j];
  }

  lemma ExperienceTextsStep(es: seq<ExperienceEntry>, i: int)
    requires 0 <= i < |es|
    ensures ExperienceTexts(es[..i + 1]) == ExperienceTexts(es[..i]) + EntryTexts(es[i])
  {
    assert es[..i + 1][..i] == es[..i];
  }

  lemma {:induction false} BulletInExperienceTexts(es: seq<ExperienceEntry>, i: int, j: int)
    requires 0 <= i < |es| && 0 <= j < |es[i].bullets|
    ensures es[i].bullets[j].text in ExperienceTexts(es)
  {
    if i < |es| - 1 {
      BulletInExperienceTexts(es[..|es| - 1], i, j);
    } else {
      assert BulletTexts(es[i].bullets)[j] == es[i].bullets[j].text;
      assert EntryTexts(es[i])[j + 1] == es[i].bullets[j].text;
    }
  }

  /** The résumé text mentions every bullet and every listed skill. */
  lemma ResumeTextMentions(r: ResumeData)
    ensures forall i, j :: 0 <= i < |r.experience| && 0 <= j < |r.experience[i].bullets| ==>
              Contains(Join(ResumeTexts(r), " "), r.experience[i].bullets[j].text)
    ensures forall s :: s in r.skills ==> Contains(Join(ResumeTexts(r), " "), s)
  {
    forall i, j | 0 <= i < |r.experience| && 0 <= j < |r.experience[i].bullets|
      ensures Contains(Join(ResumeTexts(r), " "), r.experience[i].bullets[j].text)
    {
      BulletInExperienceTexts(r.experience, i, j);
      JoinContainsPart(ResumeTexts(r), " ", r.experience[i].bullets[j].text);
    }
    forall s | s in r.skills
      ensures Contains(Join(ResumeTexts(r), " "), s)
    {
      JoinContainsPart(ResumeTexts(r), " ", s);
    }
  }

  // ---------------------------------------------------------------- keywords

  function LowerSet(s: seq<string>): set<string> {
    set x | x in s :: Lower(x)
  }

  /** The words of one requirement that can serve as keywords. */
  function ImportantWords(req: string): set<string> {
    set w | w in Words(Lower(req)) && |w| > 3 && w !in StopWords
  }

  function RequirementWords(reqs: seq<string>): set<string> {
    if reqs == [] then {} else RequirementWords(reqs[..|reqs| - 1]) + ImportantWords(reqs[|reqs| - 1])
  }

  /** Every keyword collected from a JD: its lower-cased keywords plus the important requirement words. */
  function JdKeywords(jd: JobDescription): set<string> {
    LowerSet(jd.keywords) + RequirementWords(jd.requirements + jd.responsibilities)
  }

  /** A keyword drawn from requirements is a whitespace token of some requirement, longer than 3 and not a stop word. */
  lemma {:induction false} RequirementWordsAreTokens(reqs: seq<string>, w: string)
    requires w in RequirementWords(reqs)
    ensures |w| > 3 && w !in StopWords
    ensures exists k :: 0 <= k < |reqs| && w in Words(Lower(reqs[k]))
  {
    var p := reqs[..|reqs| - 1];
    if w in RequirementWords(p) {
      RequirementWordsAreTokens(p, w);
      var k :| 0 <= k < |p| && w in Words(Lower(p[k]));
      assert reqs[k] == p[k];
    } else {
      assert w in Words(Lower(reqs[|reqs| - 1]));
    }
  }

  /** The converse: each long non-stop-word token of a requirement is collected. */
  lemma {:induction false} TokensAreRequirementWords(reqs: seq<string>, k: int, w: string)
    requires 0 <= k < |reqs| && w in Words(Lower(reqs[k])) && |w| > 3 && w !in StopWords
    ensures w in RequirementWords(reqs)
  {
    if k < |reqs| - 1 {
      TokensAreRequirementWords(reqs[..|reqs| - 1], k, w);
    }
  }

  /** The source's match test: the keyword or one of its inflections occurs in the text. */
  predicate KeywordMatch(keyword: string, text: string) {
    var k := Lower(keyword);
    var t := Lower(text);
    Contains(t, k) || Contains(t, k + "s") || Contains(t, k + "ed") || Contains(t, k + "ing")
    || (EndsWith(k, "s") && k[..|k| - 1] != "" && Contains(t, k[..|k| - 1]))
  }

  /**
   * The inflected forms add nothing: a keyword matches exactly when it, or
   * (if it ends in "s") its form without that "s", occurs in the text.
   */
  lemma KeywordMatchIff(keyword: string, text: string)
    ensures KeywordMatch(keyword, text) <==>
      Contains(Lower(text), Lower(keyword))
      || (EndsWith(Lower(keyword), "s") && |keyword| > 1 && Contains(Lower(text), Lower(keyword)[..|keyword| - 1]))
  {
    var k := Lower(keyword);
    var t := Lower(text);
    if Contains(t, k + "s") { ContainsPrefixOf(t, k, "s"); }
    if Contains(t, k + "ed") { ContainsPrefixOf(t, k, "ed"); }
    if Contains(t, k + "ing") { ContainsPrefixOf(t, k, "ing"); }
  }

  function MatchedKeywords(ks: set<string>, text: string): set<string> {
    set k | k in ks && KeywordMatch(k, text)
  }

  /** 100 for an empty keyword set, otherwise the matched percentage. */
  function KeywordScoreOf(ks: set<string>, text: string): real {
    if |ks| == 0 then 100.0 else (|MatchedKeywords(ks, text)| as real / |ks| as real) * 100.0
  }

  lemma RatioBounds(a: nat, b: nat)
    requires a <= b && b > 0
    ensures 0.0 <= a as real / b as real <= 1.0
  {
  }

  lemma RatioOne(b: nat)
    requires b > 0
    ensures b as real / b as real == 1.0
  {
  }

  lemma KeywordScoreBounds(ks: set<string>, text: string)
    ensures InPercentRange(KeywordScoreOf(ks, text))
    ensures |ks| > 0 && MatchedKeywords(ks, text) == ks ==> KeywordScoreOf(ks, text) == 100.0
    ensures |ks| > 0 && MatchedKeywords(ks, text) == {} ==> KeywordScoreOf(ks, text) == 0.0
  {
    if |ks| > 0 {
      SubsetCard(MatchedKeywords(ks, text), ks);
      RatioBounds(|MatchedKeywords(ks, text)|, |ks|);
      if MatchedKeywords(ks, text) == ks {
        RatioOne(|ks|);
      }
    }
  }

  /** The matched/missing loop: each element of `ks` goes to exactly one side, by `p`. */
  method PartitionSet(ks: set<string>, p: string -> bool) returns (yes: seq<string>, no: seq<string>)
    ensures NoDuplicates(yes) && NoDuplicates(no)
    ensures forall k :: k in yes <==> k in ks && p(k)
    ensures forall k :: k in no <==> k in ks && !p(k)
    ensures |yes| == |set k | k in ks && p(k)| && |no| == |set k | k in ks && !p(k)|
  {
    var rest := ks;
    yes, no := [], [];
    while rest != {}
      invariant rest <= ks
      invariant NoDuplicates(yes) && NoDuplicates(no)
      invariant forall k :: k in yes <==> k in ks && k !in rest && p(k)
      invariant forall k :: k in no <==> k in ks && k !in rest && !p(k)
      decreases |rest|
    {
      var k :| k in rest;
      if p(k) {
        NoDuplicatesAppend(yes, k);
        yes := yes + [k];
      } else {
        NoDuplicatesAppend(no, k);
        no := no + [k];
      }
      rest := rest - {k};
    }
    DistinctCard(yes);
    DistinctCard(no);
    assert (set k | k in yes) == (set k | k in ks && p(k));
    assert (set k | k in no) == (set k | k in ks && !p(k));
  }

  /** The keyword-collection loop of `_calculate_keyword_score`. */
  method CollectKeywords(jd: JobDescription) returns (ks: set<string>)
    ensures ks == JdKeywords(jd)
  {
    ks := LowerSet(jd.keywords);
    var reqs := jd.requirements + jd.responsibilities;
    var i := 0;
    while i < |reqs|
      invariant 0 <= i <= |reqs|
      invariant ks == LowerSet(jd.keywords) + RequirementWords(reqs[..i])
    {
      assert reqs[..i + 1][..i] == reqs[..i];
      ks := ks + ImportantWords(reqs[i]);
      i := i + 1;
    }
    assert reqs[..i] == reqs;
  }

  lemma MatchedByPredicate(ks: set<string>, text: string, hit: string -> bool)
    requires forall k :: hit(k) == KeywordMatch(k, text)
    ensures (set k | k in ks && hit(k)) == MatchedKeywords(ks, text)
    ensures (set k | k in ks && !hit(k)) == ks - MatchedKeywords(ks, text)
  {
  }

  /**
   * The keyword lists the score reports: as many distinct matched and
   * missing JD keywords as there are, 20 at most of each.
   */
  predicate KeywordListsFit(matched: seq<string>, missing: seq<string>, ks: set<string>, text: string) {
    && |matched| == Min(20, |MatchedKeywords(ks, text)|)
    && |missing| == Min(20, |ks - MatchedKeywords(ks, text)|)
    && NoDuplicates(matched) && NoDuplicates(missing)
    && (forall k :: k in matched ==> k in ks && KeywordMatch(k, text))
    && (forall k :: k in missing ==> k in ks && !KeywordMatch(k, text))
  }

  /**
   * `_calculate_keyword_score`: collects the JD keywords, sorts each into
   * matched or missing, scores the matched fraction and reports at most 20 of each.
   */
  method KeywordScore(resumeText: string, jd: JobDescription) returns (score: real, matched: seq<string>, missing: seq<string>)
    ensures score == KeywordScoreOf(JdKeywords(jd), resumeText)
    ensures |matched| == Min(20, |MatchedKeywords(JdKeywords(jd), resumeText)|)
    ensures |missing| == Min(20, |JdKeywords(jd) - MatchedKeywords(JdKeywords(jd), resumeText)|)
    ensures NoDuplicates(matched) && NoDuplicates(missing)
    ensures forall k :: k in matched ==> k in JdKeywords(jd) && KeywordMatch(k, resumeText)
    ensures forall k :: k in missing ==> k in JdKeywords(jd) && !KeywordMatch(k, resumeText)
  {
    var ks := CollectKeywords(jd);
    var hit := k => KeywordMatch(k, resumeText);
    var m, x := PartitionSet(ks, hit);
    MatchedByPredicate(ks, resumeText, hit);
    score := if |ks| == 0 then 100.0 else (|m| as real / |ks| as real) * 100.0;
    matched := Take(m, 20);
    missing := Take(x, 20);
  }

  // ---------------------------------------------------------------- skills

  /** The lower-cased JD skills that occur in one bullet. */
  function MentionedSkills(bullet: string, skills: seq<string>): set<string> {
    if skills == [] then {}
    else
      var s := skills[|skills| - 1];
      MentionedSkills(bullet, skills[..|skills| - 1])
      + (if Contains(Lower(bullet), Lower(s)) then {Lower(s)} else {})
  }

  function EntrySkills(bs: seq<BulletPoint>, skills: seq<string>): set<string> {
    if bs == [] then {} else EntrySkills(bs[..|bs| - 1], skills) + MentionedSkills(bs[|bs| - 1].text, skills)
  }

  function ExperienceSkills(es: seq<ExperienceEntry>, skills: seq<string>): set<string> {
    if es == [] then {} else ExperienceSkills(es[..|es| - 1], skills) + EntrySkills(es[|es| - 1].bullets, skills)
  }

  /** The résumé's skills for matching: its own skills plus JD skills its bullets mention, all lower-cased. */
  function ResumeSkillSet(r: ResumeData, jd: JobDescription): set<string> {
    LowerSet(r.skills) + ExperienceSkills(r.experience, jd.requiredSkills + jd.preferredSkills)
  }

  lemma {:induction false} MentionedSkillsIff(bullet: string, skills: seq<string>, x: string)
    ensures x in MentionedSkills(bullet, skills) <==>
            exists k :: 0 <= k < |skills| && Lower(skills[k]) == x && Contains(Lower(bullet), x)
  {
    if skills != [] {
      var p := skills[..|skills| - 1];
      MentionedSkillsIff(bullet, p, x);
      if x in MentionedSkills(bullet, p) {
        var k :| 0 <= k < |p| && Lower(p[k]) == x && Contains(Lower(bullet), x);
        assert skills[k] == p[k];
      }
      if exists k :: 0 <= k < |skills| && Lower(skills[k]) == x && Contains(Lower(bullet), x) {
        var k :| 0 <= k < |skills| && Lower(skills[k]) == x && Contains(Lower(bullet), x);
        if k < |p| { assert p[k] == skills[k]; }
      }
    }
  }

  lemma {:induction false} EntrySkillsIff(bs: seq<BulletPoint>, skills: seq<string>, x: string)
    ensures x in EntrySkills(bs, skills) <==> exists j :: 0 <= j < |bs| && x in MentionedSkills(bs[j].text, skills)
  {
    if bs != [] {
      var p := bs[..|bs| - 1];
      EntrySkillsIff(p, skills, x);
      if x in EntrySkills(p, skills) {
        var j :| 0 <= j < |p| && x in MentionedSkills(p[j].text, skills);
        assert bs[j] == p[j];
      }
      if exists j :: 0 <= j < |bs| && x in MentionedSkills(bs[j].text, skills) {
        var j :| 0 <= j < |bs| && x in MentionedSkills(bs[j].text, skills);
        if j < |p| { assert p[j] == bs[j]; }
      }
    }
  }

  lemma {:induction false} ExperienceSkillsIff(es: seq<ExperienceEntry>, skills: seq<string>, x: string)
    ensures x in ExperienceSkills(es, skills) <==>
            exists i, j :: 0 <= i < |es| && 0 <= j < |es[i].bullets| && x in MentionedSkills(es[i].bullets[j].text, skills)
  {
    if es != [] {
      var p := es[..|es| - 1];
      var last := es[|es| - 1];
      ExperienceSkillsIff(p, skills, x);
      EntrySkillsIff(last.bullets, skills, x);
      if x in ExperienceSkills(p, skills) {
        var i, j :| 0 <= i < |p| && 0 <= j < |p[i].bullets| && x in MentionedSkills(p[i].bullets[j].text, skills);
        assert es[i] == p[i];
      }
      if exists i, j :: 0 <= i < |es| && 0 <= j < |es[i].bullets| && x in MentionedSkills(es[i].bullets[j].text, skills) {
        var i, j :| 0 <= i < |es| && 0 <= j < |es[i].bullets| && x in MentionedSkills(es[i].bullets[j].text, skills);
        if i < |p| { assert p[i] == es[i]; }
      }
    }
  }

  /**
   * A lower-cased skill counts for the résumé exactly when the résumé lists it
   * or some bullet mentions, case-insensitively, a JD skill that lowers to it.
   */
  lemma ResumeSkillSetIff(r: ResumeData, jd: JobDescription, x: string)
    ensures x in ResumeSkillSet(r, jd) <==>
      (exists s :: s in r.skills && Lower(s) == x)
      || exists i, j, k :: 0 <= i < |r.experience| && 0 <= j < |r.experience[i].bullets|
           && 0 <= k < |jd.requiredSkills + jd.preferredSkills|
           && Lower((jd.requiredSkills + jd.preferredSkills)[k]) == x
           && Contains(Lower(r.experience[i].bullets[j].text), x)
  {
    var js := jd.requiredSkills + jd.preferredSkills;
    ExperienceSkillsIff(r.experience, js, x);
    if x in ExperienceSkills(r.experience, js) {
      var i, j :| 0 <= i < |r.experience| && 0 <= j < |r.experience[i].bullets|
                  && x in MentionedSkills(r.experience[i].bullets[j].text, js);
      MentionedSkillsIff(r.experience[i].bullets[j].text, js, x);
    }
    if exists i, j, k :: 0 <= i < |r.experience| && 0 <= j < |r.experience[i].bullets|
           && 0 <= k < |js| && Lower(js[k]) == x && Contains(Lower(r.experience[i].bullets[j].text), x) {
      var i, j, k :| 0 <= i < |r.experience| && 0 <= j < |r.experience[i].bullets|
           && 0 <= k < |js| && Lower(js[k]) == x && Contains(Lower(r.experience[i].bullets[j].text), x);
      MentionedSkillsIff(r.experience[i].bullets[j].text, js, x);
    }
  }

  /** The innermost loop of the skill collection: the JD skills one bullet mentions. */
  method SkillsInBullet(bullet: string, js: seq<string>) returns (found: set<string>)
    ensures found == MentionedSkills(bullet, js)
  {
    var b := Lower(bullet);
    found := {};
    var k := 0;
    while k < |js|
      invariant 0 <= k <= |js|
      invariant found == MentionedSkills(bullet, js[..k])
    {
      assert js[..k + 1][..k] == js[..k];
      if Contains(b, Lower(js[k])) {
        found := found + {Lower(js[k])};
      }
      k := k + 1;
    }
    assert js[..k] == js;
  }

  /** The skill set `_calculate_skill_score` builds before comparing. */
  method ResumeSkills(r: ResumeData, jd: JobDescription) returns (have: set<string>)
    ensures have == ResumeSkillSet(r, jd)
  {
    var js := jd.requiredSkills + jd.preferredSkills;
    have := LowerSet(r.skills);
    var i := 0;
    while i < |r.experience|
      invariant 0 <= i <= |r.experience|
      invariant have == LowerSet(r.skills) + ExperienceSkills(r.experience[..i], js)
    {
      var found := SkillsInEntry(r.experience[i].bullets, js);
      assert r.experience[..i + 1][..i] == r.experience[..i];
      have := have + found;
      i := i + 1;
    }
    assert r.experience[..i] == r.experience;
  }

  /** The middle loop of the skill collection: the JD skills the bullets of one entry mention. */
  method SkillsInEntry(bs: seq<BulletPoint>, js: seq<string>) returns (found: set<string>)
    ensures found == EntrySkills(bs, js)
  {
    found := {};
    var j := 0;
    while j < |bs|
      invariant 0 <= j <= |bs|
      invariant found == EntrySkills(bs[..j], js)
    {
      var inBullet := SkillsInBullet(bs[j].text, js);
      assert bs[..j + 1][..j] == bs[..j];
      found := found + inBullet;
      j := j + 1;
    }
    assert bs[..j] == bs;
  }

  /** The 70/30 required/preferred skill score over lower-cased skill sets. */
  function SkillScoreOf(have: set<string>, req: set<string>, pref: set<string>): real {
    if |req| == 0 && |pref| == 0 then 100.0
    else if |req| == 0 then
      (if |pref| > 0 then (|have * pref| as real / |pref| as real) * 100.0 else 100.0)
    else
      (|have * req| as real / |req| as real) * 70.0
      + (if |pref| > 0 then (|have * pref| as real / |pref| as real) * 30.0 else 0.0)
  }

  lemma SkillScoreBounds(have: set<string>, req: set<string>, pref: set<string>)
    ensures InPercentRange(SkillScoreOf(have, req, pref))
    ensures |req| > 0 && |pref| == 0 ==> SkillScoreOf(have, req, pref) <= 70.0
    ensures req <= have && pref <= have && (|req| == 0 || |pref| > 0) ==> SkillScoreOf(have, req, pref) == 100.0
    ensures req <= have && |req| > 0 && |pref| == 0 ==> SkillScoreOf(have, req, pref) == 70.0
  {
    if |req| > 0 {
      SubsetCard(have * req, req);
      RatioBounds(|have * req|, |req|);
    }
    if |pref| > 0 {
      SubsetCard(have * pref, pref);
      RatioBounds(|have * pref|, |pref|);
    }
    if req <= have {
      assert have * req == req;
      if |req| > 0 { RatioOne(|req|); }
    }
    if pref <= have {
      assert have * pref == pref;
      if |pref| > 0 { RatioOne(|pref|); }
    }
  }

  /** Skills {python, sql} against required {python, aws} and no preferred skills give 35. */
  lemma SkillScoreExample()
    ensures SkillScoreOf({"python", "sql"}, {"python", "aws"}, {}) == 35.0
  {
    assert {"python", "sql"} * {"python", "aws"} == {"python"};
  }

  /**
   * The skill lists the score reports: the matched required skills, then
   * the matched preferred ones, cut to 20; and as many distinct missing
   * required skills as there are, 20 at most.
   */
  predicate SkillListsFit(matched: seq<string>, missing: seq<string>, have: set<string>, req: set<string>, pref: set<string>) {
    && |matched| == Min(20, |have * req| + |have * pref|)
    && (forall k :: 0 <= k < |matched| && k < |have * req| ==> matched[k] in have * req)
    && (forall k :: |have * req| <= k < |matched| ==> matched[k] in have * pref)
    && NoDuplicates(matched[..Min(|matched|, |have * req|)])
    && |missing| == Min(20, |req - have|) && NoDuplicates(missing)
    && (forall s :: s in missing ==> s in req && s !in have)
  }

  /**
   * `_calculate_skill_score`: the score over the résumé skill set, the matched
   * required-then-preferred skills and the missing required skills, 20 at most each.
   */
  method SkillScore(r: ResumeData, jd: JobDescription) returns (score: real, matched: seq<string>, missing: seq<string>)
    ensures score == SkillScoreOf(ResumeSkillSet(r, jd), LowerSet(jd.requiredSkills), LowerSet(jd.preferredSkills))
    ensures InPercentRange(score)
    ensures |matched| <= 20 && |missing| <= 20
    ensures forall s :: s in matched ==> s in ResumeSkillSet(r, jd) && (s in LowerSet(jd.requiredSkills) || s in LowerSet(jd.preferredSkills))
    ensures forall s :: s in missing ==> s in LowerSet(jd.requiredSkills) && s !in ResumeSkillSet(r, jd)
    ensures |missing| == Min(20, |LowerSet(jd.requiredSkills) - ResumeSkillSet(r, jd)|)
    ensures SkillListsFit(matched, missing, ResumeSkillSet(r, jd), LowerSet(jd.requiredSkills), LowerSet(jd.preferredSkills))
  {
    var have := ResumeSkills(r, jd);
    var req := LowerSet(jd.requiredSkills);
    var pref := LowerSet(jd.preferredSkills);
    SkillScoreBounds(have, req, pref);
    score := SkillScoreOf(have, req, pref);
    matched, missing := SkillLists(have, req, pref);
  }

  /** The matched required-then-preferred skills and the missing required ones, 20 at most each. */
  method SkillLists(have: set<string>, req: set<string>, pref: set<string>) returns (matched: seq<string>, missing: seq<string>)
    ensures |matched| <= 20 && |missing| <= 20
    ensures forall s :: s in matched ==> s in have && (s in req || s in pref)
    ensures forall s :: s in missing ==> s in req && s !in have
    ensures |missing| == Min(20, |req - have|)
    ensures SkillListsFit(matched, missing, have, req, pref)
  {
    var mr := ListOf(have * req);
    var mp := ListOf(have * pref);
    var xr := ListOf(req - have);
    matched := Take(mr + mp, 20);
    missing := Take(xr, 20);
    assert forall s :: s in matched ==> s in mr + mp;
    assert forall s :: s in missing ==> s in xr;
    forall k | |mr| <= k < |matched|
      ensures matched[k] in have * pref
    {
      assert matched[k] == mp[k - |mr|];
    }
    assert matched[..Min(|matched|, |mr|)] == mr[..Min(|matched|, |mr|)];
  }

  // ---------------------------------------------------------------- completeness

  /** The six completeness checks, in the source's order. */
  function CompletenessChecks(r: ResumeData): seq<(string, bool)> {
    [ ("personal_info", Truthy(r.personalInfo.name) && Truthy(r.personalInfo.email)),
      ("summary", Truthy(r.summary) && |r.summary.value| > 50),
      ("experience", |r.experience| > 0),
      ("education", |r.education| > 0),
      ("skills", |r.skills| > 0),
      ("experience_detailed", exists i :: 0 <= i < |r.experience| && |r.experience[i].bullets| >= 2) ]
  }

  function CountTrue(checks: seq<(string, bool)>): (n: nat)
    ensures n <= |checks|
  {
    if checks == [] then 0 else CountTrue(checks[..|checks| - 1]) + (if checks[|checks| - 1].1 then 1 else 0)
  }

  function CompletenessScore(r: ResumeData): real {
    (CountTrue(CompletenessChecks(r)) as real / 6.0) * 100.0
  }

  /** Completeness is a sixth of 100 per passed check: 0 with none, 100 exactly when all six pass. */
  lemma CompletenessBounds(r: ResumeData)
    ensures InPercentRange(CompletenessScore(r))
    ensures CompletenessScore(r) == 100.0 <==> forall k :: 0 <= k < 6 ==> CompletenessChecks(r)[k].1
    ensures CompletenessScore(r) == 0.0 <==> forall k :: 0 <= k < 6 ==> !CompletenessChecks(r)[k].1
  {
    var c := CompletenessChecks(r);
    var n := seq(6, k requires 0 <= k < 6 => if c[k].1 then 1 else 0);
    assert CountTrue(c[..1]) == n[0] by { assert c[..1][..0] == []; }
    assert CountTrue(c[..2]) == n[0] + n[1] by { assert c[..2][..1] == c[..1]; }
    assert CountTrue(c[..3]) == n[0] + n[1] + n[2] by { assert c[..3][..2] == c[..2]; }
    assert CountTrue(c[..4]) == n[0] + n[1] + n[2] + n[3] by { assert c[..4][..3] == c[..3]; }
    assert CountTrue(c[..5]) == n[0] + n[1] + n[2] + n[3] + n[4] by { assert c[..5][..4] == c[..4]; }
    assert CountTrue(c) == n[0] + n[1] + n[2] + n[3] + n[4] + n[5] by { assert c[..5] == c[..|c| - 1]; }
  }

  // ---------------------------------------------------------------- score

  /** `score`: the breakdown of all three component scores; each lies in [0, 100]. */
  method Score(r: ResumeData, jd: JobDescription) returns (b: ScoreBreakdown)
    ensures b.keywordScore == KeywordScoreOf(JdKeywords(jd), Lower(Join(ResumeTexts(r), " ")))
    ensures b.skillScore == SkillScoreOf(ResumeSkillSet(r, jd), LowerSet(jd.requiredSkills), LowerSet(jd.preferredSkills))
    ensures b.completenessScore == CompletenessScore(r)
    ensures b.sectionCompleteness == CompletenessChecks(r)
    ensures KeywordListsFit(b.matchedKeywords, b.missingKeywords, JdKeywords(jd), Lower(Join(ResumeTexts(r), " ")))
    ensures SkillListsFit(b.matchedSkills, b.missingSkills, ResumeSkillSet(r, jd), LowerSet(jd.requiredSkills), LowerSet(jd.preferredSkills))
    ensures InPercentRange(b.keywordScore) && InPercentRange(b.skillScore) && InPercentRange(b.completenessScore)
    ensures InPercentRange(AtsScore(b))
  {
    var text := ExtractResumeText(r);
    var resumeText := Lower(text);
    var kw, mk, xk := KeywordScore(resumeText, jd);
    var sk, ms, xs := SkillScore(r, jd);
    KeywordScoreBounds(JdKeywords(jd), resumeText);
    CompletenessBounds(r);
    b := ScoreBreakdown(kw, sk, CompletenessScore(r), mk, xk, ms, xs, CompletenessChecks(r));
  }
}
