/**
 * The Adzuna job matcher. The résumé is read into a profile: titles,
 * weighted skills, years of experience and keywords. Each job is scored out
 * of 100 in four parts: title 40, skills 35, experience 15 and description
 * 10. The jobs are then ranked by score. The module also covers the search
 * keywords drawn from the résumé and the query built from them.
 *
 * The résumé is the `ResumeData` record; the matcher reads its dumped
 * dictionary. The class's three word tables are a `Lexicon` parameter:
 * the product-management titles, the skill weights and the title words.
 * `Adzuna` holds the class's own tables.
 */
module JobScraper {
  import opened Wrappers
  import opened Text
  import opened Collections
  import opened Schemas
  import opened Sorting
  import opened Tokens
  import JdSections
  import JdPostprocess

  /** The class's word tables. */
  datatype Lexicon = Lexicon(pmTitles: seq<string>, skillWeights: map<string, nat>, titleWords: seq<string>)

  const PmKeywords: seq<string> := [
    "product manager", "product management", "product owner", "pm", "apm",
    "senior product manager", "lead product manager", "director of product",
    "group product manager", "principal product manager", "vp product",
    "technical product manager", "tpm", "platform product manager"]

  const SkillWeights: map<string, nat> := map[
    "jira" := 3, "confluence" := 3, "aha" := 3, "productboard" := 3, "asana" := 2,
    "monday" := 2, "trello" := 2, "notion" := 2, "miro" := 2, "figma" := 3,
    "amplitude" := 3, "mixpanel" := 3, "tableau" := 3, "looker" := 3, "pendo" := 3,
    "google analytics" := 2, "ga4" := 2, "sql" := 4, "python" := 3,
    "api" := 3, "rest" := 2, "graphql" := 2, "aws" := 3, "azure" := 2, "gcp" := 2,
    "machine learning" := 3, "ml" := 3, "ai" := 3, "data science" := 3,
    "agile" := 3, "scrum" := 3, "kanban" := 2, "lean" := 2, "okr" := 2,
    "a/b testing" := 3, "experimentation" := 3, "roadmap" := 3,
    "leadership" := 1, "communication" := 1, "stakeholder" := 2, "strategy" := 2]

  /** The words that make a cleaned title look like a job title. */
  const ValidTitleWords: seq<string> := [
    "manager", "director", "lead", "head", "vp", "chief", "senior", "junior",
    "engineer", "developer", "analyst", "designer", "specialist", "associate",
    "product", "project", "program", "technical", "software", "data", "marketing",
    "operations", "business", "sales", "customer", "support", "quality"]

  const Adzuna := Lexicon(PmKeywords, SkillWeights, ValidTitleWords)

  /** The keyword searched for when the résumé gives none. */
  const DefaultKeyword := "Product Manager"

  // ---------------------------------------------------------------- titles

  /** The titles one experience entry adds: its own, lower-cased, and the variations it mentions. */
  function TitleVariants(title: string): (r: seq<string>)
    ensures |r| >= 1 && r[0] == Lower(title)
  {
    var low := Lower(title);
    [low]
    + (if Contains(low, "product manager") then ["pm", "product", "product manager"] else [])
    + (if Contains(low, "senior") then ["senior"] else [])
    + (if Contains(low, "lead") then ["lead"] else [])
  }

  /** The titles the loop of `_extract_job_titles` collects, before the set is taken. */
  function TitlesOf(es: seq<ExperienceEntry>): seq<string> {
    if es == [] then []
    else
      var e := es[|es| - 1];
      TitlesOf(es[..|es| - 1]) + (if e.title != "" then TitleVariants(e.title) else [])
  }

  /** A title comes from an entry with a non-empty title. */
  lemma {:induction false} TitlesOfSpec(es: seq<ExperienceEntry>, t: string)
    ensures t in TitlesOf(es) <==> exists i :: 0 <= i < |es| && es[i].title != "" && t in TitleVariants(es[i].title)
  {
    if es != [] {
      var init := es[..|es| - 1];
      TitlesOfSpec(init, t);
      if t in TitlesOf(es) && t !in TitlesOf(init) {
        assert es[|es| - 1].title != "" && t in TitleVariants(es[|es| - 1].title);
      }
      if exists i :: 0 <= i < |es| && es[i].title != "" && t in TitleVariants(es[i].title) {
        var i :| 0 <= i < |es| && es[i].title != "" && t in TitleVariants(es[i].title);
        if i < |es| - 1 {
          assert init[i] == es[i];
        }
      }
    }
  }

  /** No upper-case ASCII letter: what `lower()` leaves unchanged. */
  predicate NoCapitals(s: string) {
    forall i :: 0 <= i < |s| ==> !('A' <= s[i] <= 'Z')
  }

  lemma LowerNoCapitals(s: string)
    ensures NoCapitals(Lower(s))
    ensures NoCapitals(s) ==> Lower(s) == s
  {
  }

  lemma TitleVariantsLowercase(title: string)
    ensures forall t :: t in TitleVariants(title) ==> NoCapitals(t)
  {
    LowerNoCapitals(title);
  }

  /** Every collected title is lower-case. */
  lemma {:induction false} TitlesLowercase(es: seq<ExperienceEntry>)
    ensures forall t :: t in TitlesOf(es) ==> NoCapitals(t)
  {
    if es != [] {
      TitlesLowercase(es[..|es| - 1]);
      TitleVariantsLowercase(es[|es| - 1].title);
    }
  }

  /** `_extract_job_titles`: the distinct titles, in the order the set yields them. */
  method ExtractJobTitles(resume: ResumeData) returns (titles: seq<string>)
    ensures NoDuplicates(titles)
    ensures forall t :: t in titles <==> t in TitlesOf(resume.experience)
  {
    var es := resume.experience;
    var found: seq<string> := [];
    var i := 0;
    while i < |es|
      invariant 0 <= i <= |es|
      invariant found == TitlesOf(es[..i])
    {
      assert es[..i + 1][..i] == es[..i];
      if es[i].title != "" {
        found := found + TitleVariants(es[i].title);
      }
      i := i + 1;
    }
    assert es[..i] == es;
    titles := ListOf(set t | t in found);
  }

  // ---------------------------------------------------------------- skills

  /** A skill table in insertion order: name and weight (a dict). */
  type Weights = seq<(string, nat)>

  predicate HasName(w: Weights, k: string) {
    exists i :: 0 <= i < |w| && w[i].0 == k
  }

  predicate DistinctNames(w: Weights) {
    forall i, j :: 0 <= i < j < |w| ==> w[i].0 != w[j].0
  }

  /** `SKILL_WEIGHTS.get(k, 2)` */
  function Weight(table: map<string, nat>, k: string): nat {
    if k in table then table[k] else 2
  }

  /** `skill.lower().strip()` */
  function SkillKey(skill: string): string {
    Strip(Lower(skill))
  }

  /** The keys the résumé's own skills give. */
  function ResumeSkillKeys(skills: seq<string>): set<string> {
    Image(skills, SkillKey)
  }

  /** The summary, when there is one, then every bullet text. */
  function TextSources(resume: ResumeData): seq<string> {
    (if resume.summary.Some? then [resume.summary.value] else []) + AllBulletTexts(resume.experience)
  }

  /** The lower-cased text the table's skills are looked for in. */
  function SkillText(resume: ResumeData): string {
    Lower(Join(TextSources(resume), " "))
  }

  /** The table's skills that occur in the text. */
  function FoundSkills(table: map<string, nat>, text: string): set<string> {
    set k | k in table && Contains(text, k)
  }

  /** The skill names `_extract_skills` ends with. */
  function SkillKeys(resume: ResumeData, table: map<string, nat>): set<string> {
    ResumeSkillKeys(resume.skills) + FoundSkills(table, SkillText(resume))
  }

  /** Every name in the skill table has its table weight, or 2. */
  predicate TableWeighted(w: Weights, table: map<string, nat>) {
    forall i :: 0 <= i < |w| ==> w[i].1 == Weight(table, w[i].0)
  }

  /**
   * `_extract_skills`: the résumé's skills, then the table's skills found in
   * the summary and bullets. Each name appears once, with its table weight
   * or 2. The table is read in the order its key set yields.
   */
  method ExtractSkills(resume: ResumeData, table: map<string, nat>) returns (skills: Weights)
    ensures DistinctNames(skills)
    ensures forall k :: HasName(skills, k) <==> k in SkillKeys(resume, table)
    ensures TableWeighted(skills, table)
  {
    var own := OwnSkills(resume.skills, table);
    skills := AddFoundSkills(own, table, SkillText(resume));
  }

  /** The first loop of `_extract_skills`: `skills[key] = weight` for each résumé skill. */
  method OwnSkills(ss: seq<string>, table: map<string, nat>) returns (skills: Weights)
    ensures DistinctNames(skills) && TableWeighted(skills, table)
    ensures forall k :: HasName(skills, k) <==> k in ResumeSkillKeys(ss)
  {
    skills := AssignAll(ss, SkillKey, k => Weight(table, k));
  }

  /** `for x in xs: d[key(x)] = weight(key(x))`, starting from the empty dict. */
  method AssignAll(xs: seq<string>, key: string -> string, weight: string -> nat) returns (skills: Weights)
    ensures DistinctNames(skills)
    ensures forall i :: 0 <= i < |skills| ==> skills[i].1 == weight(skills[i].0)
    ensures forall k :: HasName(skills, k) <==> k in Image(xs, key)
  {
    skills := [];
    var i := 0;
    while i < |xs|
      invariant 0 <= i <= |xs|
      invariant DistinctNames(skills)
      invariant forall j :: 0 <= j < |skills| ==> skills[j].1 == weight(skills[j].0)
      invariant forall k :: HasName(skills, k) <==> k in Image(xs[..i], key)
    {
      var k := key(xs[i]);
      skills := SetName(skills, k, weight(k), weight);
      ImageNext(xs, i, key);
      i := i + 1;
    }
    assert xs[..i] == xs;
  }

  /** `d[key] = weight`: the weight of a present name is replaced, a new name goes last. */
  method SetName(w: Weights, key: string, v: nat, ghost weight: string -> nat) returns (skills: Weights)
    requires DistinctNames(w) && v == weight(key)
    requires forall i :: 0 <= i < |w| ==> w[i].1 == weight(w[i].0)
    ensures DistinctNames(skills)
    ensures forall i :: 0 <= i < |skills| ==> skills[i].1 == weight(skills[i].0)
    ensures forall k :: HasName(skills, k) <==> HasName(w, k) || k == key
  {
    if exists j :: 0 <= j < |w| && w[j].0 == key {
      var j :| 0 <= j < |w| && w[j].0 == key;
      skills := w[j := (key, v)];
    } else {
      skills := w + [(key, v)];
    }
    forall k
      ensures HasName(skills, k) <==> HasName(w, k) || k == key
    {
      if HasName(w, k) {
        var m :| 0 <= m < |w| && w[m].0 == k;
        assert skills[m].0 == k;
      }
      if k == key {
        var m :| 0 <= m < |skills| && skills[m].0 == key;
      }
    }
  }

  /** The second loop of `_extract_skills`: each table skill found in the text and not yet present is added. */
  method AddFoundSkills(own: Weights, table: map<string, nat>, text: string) returns (skills: Weights)
    requires DistinctNames(own) && TableWeighted(own, table)
    ensures DistinctNames(skills) && TableWeighted(skills, table)
    ensures forall k :: HasName(skills, k) <==> HasName(own, k) || k in FoundSkills(table, text)
  {
    skills := own;
    var names := ListOf(table.Keys);
    var n := 0;
    while n < |names|
      invariant 0 <= n <= |names|
      invariant DistinctNames(skills) && TableWeighted(skills, table)
      invariant forall k :: HasName(skills, k) <==> HasName(own, k) || (k in FoundSkills(table, text) && k in names[..n])
    {
      var name := names[n];
      ghost var prev := skills;
      if Contains(text, name) && !(exists j :: 0 <= j < |skills| && skills[j].0 == name) {
        skills := skills + [(name, table[name])];
        assert skills[|prev|].0 == name;
      }
      assert forall k :: HasName(prev, k) ==> HasName(skills, k) by {
        forall k | HasName(prev, k) ensures HasName(skills, k) {
          var m :| 0 <= m < |prev| && prev[m].0 == k;
          assert skills[m].0 == k;
        }
      }
      assert names[..n + 1] == names[..n] + [name];
      n := n + 1;
    }
    assert names[..n] == names;
  }

  // ---------------------------------------------------------------- years

  predicate IsDigitChar(c: char) {
    '0' <= c <= '9'
  }

  /** `re.findall(r'20\d{2}', s)`: the four-digit years 2000 to 2099, left to right. */
  function Years20(s: string): (r: seq<nat>)
    ensures forall k :: 0 <= k < |r| ==> 2000 <= r[k] <= 2099
    decreases |s|
  {
    if |s| >= 4 && s[0] == '2' && s[1] == '0' && IsDigitChar(s[2]) && IsDigitChar(s[3]) then
      [2000 + 10 * Digit(s[2]) + Digit(s[3])] + Years20(s[4..])
    else if s == [] then []
    else Years20(s[1..])
  }

  /** The years one dates text adds: the span from its first to its last year, or 2 for an open role. */
  function EntryYears(dates: string): nat {
    var ys := Years20(dates);
    if |ys| >= 2 then (if ys[|ys| - 1] >= ys[0] then ys[|ys| - 1] - ys[0] else 0)
    else if Contains(Lower(dates), "present") || Contains(Lower(dates), "current") then 2
    else 0
  }

  function SumYears(ds: seq<string>): nat {
    if ds == [] then 0 else SumYears(ds[..|ds| - 1]) + EntryYears(ds[|ds| - 1])
  }

  /** `_estimate_experience_years` over the dates texts of the entries: the sum, capped at 20. */
  function EstimateYears(ds: seq<string>): (y: nat)
    ensures y <= 20
  {
    Min(SumYears(ds), 20)
  }

  /**
   * The dates text as written: the entry has no `dates` key (its dates are
   * under `start_date` and `end_date`), so every entry reads as "".
   */
  function DatesAsWritten(e: ExperienceEntry): string {
    ""
  }

  /** The dates text the estimate evidently means: the entry's start and end dates. */
  function EntryDates(e: ExperienceEntry): string {
    e.startDate.UnwrapOr("") + " - " + e.endDate.UnwrapOr("")
  }

  function DatesOf(es: seq<ExperienceEntry>, asWritten: bool): (ds: seq<string>)
    ensures |ds| == |es|
    ensures forall i :: 0 <= i < |es| ==> ds[i] == if asWritten then DatesAsWritten(es[i]) else EntryDates(es[i])
  {
    seq(|es|, i requires 0 <= i < |es| => if asWritten then DatesAsWritten(es[i]) else EntryDates(es[i]))
  }

  /** The estimate as written. */
  function YearsAsWritten(resume: ResumeData): nat {
    EstimateYears(DatesOf(resume.experience, true))
  }

  /** The estimate over the entries' own dates. */
  function ResumeYears(resume: ResumeData): nat {
    EstimateYears(DatesOf(resume.experience, false))
  }

  lemma {:induction false} SumYearsBlank(ds: seq<string>)
    requires forall i :: 0 <= i < |ds| ==> ds[i] == ""
    ensures SumYears(ds) == 0
  {
    if ds != [] {
      SumYearsBlank(ds[..|ds| - 1]);
      assert Years20("") == [];
      assert !Contains("", "present") && !Contains("", "current");
    }
  }

  /** As written, every résumé reads as zero years of experience. */
  lemma YearsAsWrittenZero(resume: ResumeData)
    ensures YearsAsWritten(resume) == 0
  {
    SumYearsBlank(DatesOf(resume.experience, true));
  }

  /** One role from 2015 to 2020. */
  function FiveYearResume(): ResumeData {
    ResumeData(PersonalInfo(None, None, None, None, None), None,
               [ExperienceEntry("Acme", "Product Manager", None, Some("2015"), Some("2020"), [])],
               [], [], None)
  }

  /** A 2015 to 2020 span is five years. */
  lemma SpanYears()
    ensures EntryYears("2015 - 2020") == 5
  {
    var d := "2015 - 2020";
    assert d[4..] == " - 2020" && d[5..] == "- 2020" && d[6..] == " 2020" && d[7..] == "2020";
    assert Years20(d[7..]) == [2020] by {
      assert d[7..][4..] == [];
    }
    assert Years20(d) == [2015, 2020];
  }

  /** A one-role résumé counts that role's years. */
  lemma OneRoleYears(resume: ResumeData)
    requires |resume.experience| == 1
    ensures ResumeYears(resume) == Min(EntryYears(EntryDates(resume.experience[0])), 20)
  {
    var ds := DatesOf(resume.experience, false);
    assert ds[..|ds| - 1] == [];
    assert SumYears(ds) == SumYears([]) + EntryYears(ds[0]);
  }

  /** The role from 2015 to 2020 counts five years over its own dates, and none as written. */
  lemma FiveYearsCounted()
    ensures ResumeYears(FiveYearResume()) == 5
    ensures YearsAsWritten(FiveYearResume()) == 0
  {
    var r := FiveYearResume();
    assert EntryDates(r.experience[0]) == "2015 - 2020";
    SpanYears();
    OneRoleYears(r);
    YearsAsWrittenZero(r);
  }

  /** The capped sum of the entries' years, entry by entry, over the dates text `DatesOf` reads. */
  method SumEntryYears(es: seq<ExperienceEntry>, asWritten: bool) returns (total: nat)
    ensures total == EstimateYears(DatesOf(es, asWritten))
    ensures total <= 20
  {
    ghost var ds := DatesOf(es, asWritten);
    var sum := 0;
    var i := 0;
    while i < |es|
      invariant 0 <= i <= |es|
      invariant sum == SumYears(ds[..i])
    {
      assert ds[..i + 1][..i] == ds[..i];
      var dates := if asWritten then DatesAsWritten(es[i]) else EntryDates(es[i]);
      sum := sum + EntryYears(dates);
      i := i + 1;
    }
    assert ds[..i] == ds;
    total := Min(sum, 20);
  }

  /** `_estimate_experience_years` as written: every entry's dates read as "", so the estimate is 0. */
  method EstimateExperienceYears(resume: ResumeData) returns (total: nat)
    ensures total == YearsAsWritten(resume)
    ensures total == 0
  {
    total := SumEntryYears(resume.experience, true);
    YearsAsWrittenZero(resume);
  }

  // ---------------------------------------------------------------- keywords

  /** The words a summary word must not be. */
  const StopWords: seq<string> := ["that", "this", "with", "from", "have", "been", "were", "their"]

  /** The summary's words of four or more letters, lower-cased, other than the stop words. */
  function SummaryWords(summary: string): set<string> {
    set w | w in WordRuns(Lower(summary)) && LetterWord(w, 4) && w !in StopWords
  }

  /** The capitalised terms of more than three letters in a bullet, lower-cased. */
  function BulletTerms(text: string): set<string> {
    set m | m in CapitalRuns(text) && |m| > 3 :: Lower(m)
  }

  function SkillWords(skills: seq<string>): set<string> {
    set s | s in skills :: Lower(s)
  }

  function BulletKeywords(texts: seq<string>): set<string> {
    if texts == [] then {} else BulletKeywords(texts[..|texts| - 1]) + BulletTerms(texts[|texts| - 1])
  }

  function SummaryKeywords(summary: Option<string>): set<string> {
    if summary.Some? then SummaryWords(summary.value) else {}
  }

  /** The keywords `_extract_all_keywords` collects. */
  function KeywordSet(resume: ResumeData): set<string> {
    SkillWords(resume.skills) + SummaryKeywords(resume.summary) + BulletKeywords(AllBulletTexts(resume.experience))
  }

  /** A piece of a lower-cased text is lower-case. */
  lemma LowerChars(s: string, w: string)
    requires forall c :: c in w ==> c in Lower(s)
    ensures NoCapitals(w)
  {
    forall i | 0 <= i < |w|
      ensures !('A' <= w[i] <= 'Z')
    {
      assert w[i] in Lower(s);
    }
  }

  lemma {:induction false} BulletKeywordsLower(texts: seq<string>)
    ensures forall k :: k in BulletKeywords(texts) ==> NoCapitals(k)
  {
    if texts != [] {
      BulletKeywordsLower(texts[..|texts| - 1]);
      forall k | k in BulletTerms(texts[|texts| - 1])
        ensures NoCapitals(k)
      {
        var m :| m in CapitalRuns(texts[|texts| - 1]) && |m| > 3 && k == Lower(m);
        LowerNoCapitals(m);
      }
    }
  }

  /**
   * Every keyword is lower-case, so it can be found in a lower-cased job
   * description; a summary word has four or more letters and is no stop word.
   */
  lemma KeywordsLowercase(resume: ResumeData)
    ensures forall k :: k in KeywordSet(resume) ==> NoCapitals(k)
    ensures forall k :: k in SummaryKeywords(resume.summary) ==> |k| >= 4 && AllLetters(k) && k !in StopWords
  {
    forall k | k in SkillWords(resume.skills)
      ensures NoCapitals(k)
    {
      var s :| s in resume.skills && k == Lower(s);
      LowerNoCapitals(s);
    }
    if resume.summary.Some? {
      var low := Lower(resume.summary.value);
      WordRunsFromWithin(low, []);
      forall k | k in SummaryWords(resume.summary.value)
        ensures NoCapitals(k)
      {
        var i :| 0 <= i < |WordRuns(low)| && WordRuns(low)[i] == k;
        LowerChars(resume.summary.value, k);
      }
    }
    BulletKeywordsLower(AllBulletTexts(resume.experience));
  }

  /** `_extract_all_keywords`: the skills, the summary's words and the bullets' capitalised terms. */
  method ExtractAllKeywords(resume: ResumeData) returns (keywords: set<string>)
    ensures keywords == KeywordSet(resume)
  {
    keywords := SkillWordsLoop(resume.skills);
    if resume.summary.Some? {
      keywords := keywords + SummaryWords(resume.summary.value);
    }
    var terms := BulletKeywordsLoop(AllBulletTexts(resume.experience));
    keywords := keywords + terms;
  }

  method SkillWordsLoop(ss: seq<string>) returns (keywords: set<string>)
    ensures keywords == SkillWords(ss)
  {
    keywords := {};
    for i := 0 to |ss|
      invariant keywords == SkillWords(ss[..i])
    {
      assert ss[..i + 1] == ss[..i] + [ss[i]];
      keywords := keywords + {Lower(ss[i])};
    }
    assert ss[..|ss|] == ss;
  }

  method BulletKeywordsLoop(texts: seq<string>) returns (keywords: set<string>)
    ensures keywords == BulletKeywords(texts)
  {
    keywords := {};
    for j := 0 to |texts|
      invariant keywords == BulletKeywords(texts[..j])
    {
      assert texts[..j + 1][..j] == texts[..j];
      keywords := keywords + BulletTerms(texts[j]);
    }
    assert texts[..|texts|] == texts;
  }

  // ---------------------------------------------------------------- title score

  /** Some word of the résumé title longer than three characters occurs in the job title. */
  predicate PartialMatch(jobTitle: string, title: string) {
    var ws := Words(title);
    exists k :: 0 <= k < |ws| && |ws[k]| > 3 && Contains(jobTitle, ws[k])
  }

  /** The loop over the résumé titles: the best tier reached, and the matches noted. */
  function TitleLoop(jobTitle: string, titles: seq<string>): (int, seq<string>) {
    if titles == [] then (0, [])
    else
      var prev := TitleLoop(jobTitle, titles[..|titles| - 1]);
      var t := titles[|titles| - 1];
      if Contains(jobTitle, t) then (Max(prev.0, 40), prev.1 + ["Title: " + t])
      else if PartialMatch(jobTitle, t) then (Max(prev.0, 25), prev.1 + ["Similar: " + t])
      else prev
  }

  /** Both the job title and the joined résumé titles name a product-management role. */
  predicate PmRole(jobTitle: string, titles: seq<string>, pm: seq<string>) {
    MentionsAny(jobTitle, pm) && MentionsAny(Join(titles, " "), pm)
  }

  /** `_score_title_match` */
  function TitleScore(jobTitle: string, titles: seq<string>, pm: seq<string>): (int, seq<string>) {
    var r := TitleLoop(jobTitle, titles);
    if PmRole(jobTitle, titles, pm) then (Max(r.0, 35), r.1 + ["PM Role Match"]) else r
  }

  /** Some résumé title occurs whole in the job title. */
  predicate ExactTitle(jobTitle: string, titles: seq<string>) {
    exists i :: 0 <= i < |titles| && Contains(jobTitle, titles[i])
  }

  /** Some résumé title occurs whole or shares a long word with the job title. */
  predicate SimilarTitle(jobTitle: string, titles: seq<string>) {
    exists i :: 0 <= i < |titles| && (Contains(jobTitle, titles[i]) || PartialMatch(jobTitle, titles[i]))
  }

  /** The loop reaches 40 exactly on a whole title, 25 on a shared word only, and 0 otherwise. */
  lemma {:induction false} TitleLoopSpec(jobTitle: string, titles: seq<string>)
    ensures var s := TitleLoop(jobTitle, titles).0;
            && (s == 0 || s == 25 || s == 40)
            && (s == 40 <==> ExactTitle(jobTitle, titles))
            && (s >= 25 <==> SimilarTitle(jobTitle, titles))
  {
    if titles != [] {
      var init := titles[..|titles| - 1];
      var t := titles[|titles| - 1];
      TitleLoopSpec(jobTitle, init);
      if ExactTitle(jobTitle, init) {
        var i :| 0 <= i < |init| && Contains(jobTitle, init[i]);
        assert titles[i] == init[i];
      }
      if SimilarTitle(jobTitle, init) {
        var i :| 0 <= i < |init| && (Contains(jobTitle, init[i]) || PartialMatch(jobTitle, init[i]));
        assert titles[i] == init[i];
      }
      if ExactTitle(jobTitle, titles) && !Contains(jobTitle, t) {
        var i :| 0 <= i < |titles| && Contains(jobTitle, titles[i]);
        assert i < |init| && init[i] == titles[i];
      }
      if SimilarTitle(jobTitle, titles) && !Contains(jobTitle, t) && !PartialMatch(jobTitle, t) {
        var i :| 0 <= i < |titles| && (Contains(jobTitle, titles[i]) || PartialMatch(jobTitle, titles[i]));
        assert i < |init| && init[i] == titles[i];
      }
    }
  }

  /**
   * The title part is 40 when a résumé title occurs whole in the job title,
   * else 35 for a product-management role on both sides, else 25 when a long
   * word is shared, else 0.
   */
  lemma TitleScoreSpec(jobTitle: string, titles: seq<string>, pm: seq<string>)
    ensures var s := TitleScore(jobTitle, titles, pm).0;
            && (s == 40 <==> ExactTitle(jobTitle, titles))
            && (s == 35 <==> !ExactTitle(jobTitle, titles) && PmRole(jobTitle, titles, pm))
            && (s == 25 <==> !PmRole(jobTitle, titles, pm) && !ExactTitle(jobTitle, titles) && SimilarTitle(jobTitle, titles))
            && (s == 0 <==> !PmRole(jobTitle, titles, pm) && !SimilarTitle(jobTitle, titles))
  {
    TitleLoopSpec(jobTitle, titles);
  }

  /** `_score_title_match`, title by title. */
  method ScoreTitleMatch(jobTitle: string, titles: seq<string>, pm: seq<string>) returns (score: int, matches: seq<string>)
    ensures (score, matches) == TitleScore(jobTitle, titles, pm)
  {
    score, matches := 0, [];
    for i := 0 to |titles|
      invariant (score, matches) == TitleLoop(jobTitle, titles[..i])
    {
      assert titles[..i + 1][..i] == titles[..i];
      var t := titles[i];
      if Contains(jobTitle, t) {
        score, matches := Max(score, 40), matches + ["Title: " + t];
      } else if PartialMatch(jobTitle, t) {
        score, matches := Max(score, 25), matches + ["Similar: " + t];
      }
    }
    assert titles[..|titles|] == titles;
    var inJob := JdPostprocess.MentionsAnyLoop(jobTitle, pm);
    if inJob {
      var inResume := JdPostprocess.MentionsAnyLoop(Join(titles, " "), pm);
      if inResume {
        score, matches := Max(score, 35), matches + ["PM Role Match"];
      }
    }
  }

  // ---------------------------------------------------------------- skills score

  /** `sum(skills.values())` */
  function TotalWeight(w: Weights): nat {
    if w == [] then 0 else TotalWeight(w[..|w| - 1]) + w[|w| - 1].1
  }

  /** The weight of the skills found in the text. */
  function MatchedWeight(text: string, w: Weights): nat {
    if w == [] then 0
    else MatchedWeight(text, w[..|w| - 1]) + (if Contains(text, w[|w| - 1].0) then w[|w| - 1].1 else 0)
  }

  /** The names of the skills found in the text, in table order. */
  function MatchedSkills(text: string, w: Weights): seq<string> {
    if w == [] then []
    else MatchedSkills(text, w[..|w| - 1]) + (if Contains(text, w[|w| - 1].0) then [w[|w| - 1].0] else [])
  }

  /** `_score_skills_match`: the found share of the weight, scaled to 35; an empty table counts as weight 1. */
  function SkillsScore(text: string, w: Weights): real {
    var total := TotalWeight(w);
    (MatchedWeight(text, w) as real / (if total == 0 then 1 else total) as real) * 35.0
  }

  /** Every skill of positive weight is found. */
  predicate AllFound(text: string, w: Weights) {
    forall i :: 0 <= i < |w| && w[i].1 > 0 ==> Contains(text, w[i].0)
  }

  /** No skill of positive weight is found. */
  predicate NoneFound(text: string, w: Weights) {
    forall i :: 0 <= i < |w| && w[i].1 > 0 ==> !Contains(text, w[i].0)
  }

  lemma {:induction false} MatchedWeightSpec(text: string, w: Weights)
    ensures MatchedWeight(text, w) <= TotalWeight(w)
    ensures MatchedWeight(text, w) == TotalWeight(w) <==> AllFound(text, w)
    ensures MatchedWeight(text, w) == 0 <==> NoneFound(text, w)
  {
    if w != [] {
      var init := w[..|w| - 1];
      MatchedWeightSpec(text, init);
      assert forall i :: 0 <= i < |init| ==> init[i] == w[i];
      if !AllFound(text, init) {
        var i :| 0 <= i < |init| && init[i].1 > 0 && !Contains(text, init[i].0);
        assert w[i] == init[i];
      }
      if !NoneFound(text, init) {
        var i :| 0 <= i < |init| && init[i].1 > 0 && Contains(text, init[i].0);
        assert w[i] == init[i];
      }
    }
  }

  /**
   * The skills part lies in [0, 35]; it is 35 exactly when every weighted
   * skill is found, and 0 exactly when none is.
   */
  lemma SkillsScoreSpec(text: string, w: Weights)
    ensures 0.0 <= SkillsScore(text, w) <= 35.0
    ensures TotalWeight(w) > 0 ==> (SkillsScore(text, w) == 35.0 <==> AllFound(text, w))
    ensures SkillsScore(text, w) == 0.0 <==> NoneFound(text, w)
  {
    MatchedWeightSpec(text, w);
    var total := TotalWeight(w);
    Ratio(MatchedWeight(text, w) as real, (if total == 0 then 1 else total) as real);
  }

  /** A share of a positive whole lies in [0, 1], reaching 1 only for the whole and 0 only for nothing. */
  lemma Ratio(m: real, t: real)
    requires 0.0 <= m <= t && t > 0.0
    ensures 0.0 <= m / t * 35.0 <= 35.0
    ensures m / t * 35.0 == 35.0 <==> m == t
    ensures m / t * 35.0 == 0.0 <==> m == 0.0
  {
    var r := m / t;
    assert r * t == m;
    if r == 1.0 {
      assert m == t;
    }
  }

  /** `_score_skills_match`: the total weight, then one pass over the skills. */
  method ScoreSkillsMatch(text: string, skills: Weights) returns (score: real, matches: seq<string>)
    ensures score == SkillsScore(text, skills)
    ensures matches == MatchedSkills(text, skills)
  {
    var total := 0;
    for i := 0 to |skills|
      invariant total == TotalWeight(skills[..i])
    {
      assert skills[..i + 1][..i] == skills[..i];
      total := total + skills[i].1;
    }
    assert skills[..|skills|] == skills;
    if total == 0 {
      total := 1;
    }
    var matched := 0;
    matches := [];
    for i := 0 to |skills|
      invariant matched == MatchedWeight(text, skills[..i])
      invariant matches == MatchedSkills(text, skills[..i])
    {
      assert skills[..i + 1][..i] == skills[..i];
      if Contains(text, skills[i].0) {
        matched := matched + skills[i].1;
        matches := matches + [skills[i].0];
      }
    }
    assert skills[..|skills|] == skills;
    score := (matched as real / total as real) * 35.0;
  }

  // ---------------------------------------------------------------- experience score

  const SeniorWords: seq<string> := ["senior", "sr.", "lead", "principal", "staff"]
  const JuniorWords: seq<string> := ["junior", "jr.", "associate", "entry"]

  /** The years a job title asks for by its level: 5 senior, 1 junior, 8 director, 3 otherwise. */
  function TitleYears(jobTitle: string): (n: nat)
    ensures n == 1 || n == 3 || n == 5 || n == 8
  {
    if MentionsAny(jobTitle, SeniorWords) then 5
    else if MentionsAny(jobTitle, JuniorWords) then 1
    else if Contains(jobTitle, "director") || Contains(jobTitle, "vp") || Contains(jobTitle, "head") then 8
    else 3
  }

  /** The number of characters satisfying `p` that `s` starts with. */
  function DigitRun(s: string): (n: nat)
    ensures n <= |s|
    ensures forall i :: 0 <= i < n ==> IsDigitChar(s[i])
  {
    if s != [] && IsDigitChar(s[0]) then 1 + DigitRun(s[1..]) else 0
  }

  function SpaceRun(s: string): (n: nat)
    ensures n <= |s|
  {
    if s != [] && IsSpace(s[0]) then 1 + SpaceRun(s[1..]) else 0
  }

  /** The length of `years?|yrs?` at the start of `s`, or 0. */
  function YearWord(s: string): (n: nat)
    ensures n <= |s|
  {
    if StartsWith(s, "years") then 5
    else if StartsWith(s, "year") then 4
    else if StartsWith(s, "yrs") then 3
    else if StartsWith(s, "yr") then 2
    else 0
  }

  /** A match of `(\d+)\+?\s*(?:years?|yrs?)` at the start of `s`: its number and its length. */
  function MentionAt(s: string): (r: Option<(nat, nat)>)
    ensures r.Some? ==> 1 <= r.value.1 <= |s|
  {
    var n := DigitRun(s);
    if n == 0 then None
    else
      var j := if n < |s| && s[n] == '+' then n + 1 else n;
      var k := j + SpaceRun(s[j..]);
      var w := YearWord(s[k..]);
      assert AllDigits(s[..n]);
      if w == 0 then None else Some((DigitsValue(s[..n]), k + w))
  }

  /** `re.findall(r'(\d+)\+?\s*(?:years?|yrs?)', s)` as numbers, left to right. */
  function YearMentions(s: string): seq<nat>
    decreases |s|
  {
    if s == [] then []
    else
      var m := MentionAt(s);
      if m.Some? then [m.value.0] + YearMentions(s[m.value.1..])
      else YearMentions(s[1..])
  }

  /** The largest number of a non-empty list. */
  function MaxOf(s: seq<nat>): (m: nat)
    requires s != []
    ensures m in s
    ensures forall k :: 0 <= k < |s| ==> s[k] <= m
  {
    if |s| == 1 then s[0]
    else
      var prev := MaxOf(s[..|s| - 1]);
      if s[|s| - 1] > prev then s[|s| - 1] else prev
  }

  /** The years a job asks for: the largest number of years the description names, else its title's level. */
  function RequiredYears(jobTitle: string, jobDesc: string): nat {
    var ms := YearMentions(jobDesc);
    if ms != [] then MaxOf(ms) else TitleYears(jobTitle)
  }

  /** `_score_experience_match`'s tiers: 15 when qualified, 10 within two years, 5 within four, else 0. */
  function ExperienceScore(years: int, required: int): int {
    if years >= required then 15
    else if years >= required - 2 then 10
    else if years >= required - 4 then 5
    else 0
  }

  /** The experience part is one of four tiers, full exactly when the years suffice, and rises with the years. */
  lemma ExperienceScoreSpec(years: int, required: int, more: int)
    requires years <= more
    ensures var s := ExperienceScore(years, required);
            && (s == 0 || s == 5 || s == 10 || s == 15)
            && (s == 15 <==> years >= required)
            && (s == 0 <==> years < required - 4)
            && s <= ExperienceScore(more, required)
  {
  }

  /** A description naming a number of years sets the requirement; the largest number wins. */
  lemma RequiredYearsSpec(jobTitle: string, jobDesc: string)
    ensures var ms := YearMentions(jobDesc);
            var r := RequiredYears(jobTitle, jobDesc);
            && (ms == [] ==> r == 1 || r == 3 || r == 5 || r == 8)
            && (ms != [] ==> r in ms && forall k :: 0 <= k < |ms| ==> ms[k] <= r)
  {
  }

  /** `5+ years` names five years. */
  lemma FivePlusYears()
    ensures YearMentions("5+ years") == [5]
  {
    var s := "5+ years";
    assert DigitRun(s[1..]) == 0;
    assert DigitRun(s) == 1;
    assert s[2..][1..] == "years";
    assert SpaceRun(s[2..]) == 1;
    assert s[3..] == "years";
    assert YearWord(s[3..]) == 5;
    assert s[..1] == "5";
    assert DigitsValue("5") == 5 by {
      assert "5"[..0] == [];
    }
    assert MentionAt(s) == Some((5, 8));
    assert s[8..] == [];
  }

  /** The largest mention, one number at a time. */
  method MaxLoop(ms: seq<nat>) returns (m: nat)
    requires ms != []
    ensures m == MaxOf(ms)
  {
    m := ms[0];
    for i := 1 to |ms|
      invariant m == MaxOf(ms[..i])
    {
      assert ms[..i + 1][..i] == ms[..i];
      if ms[i] > m {
        m := ms[i];
      }
    }
    assert ms[..|ms|] == ms;
  }

  /** `_score_experience_match` */
  method ScoreExperienceMatch(jobTitle: string, jobDesc: string, years: int) returns (score: int)
    ensures score == ExperienceScore(years, RequiredYears(jobTitle, jobDesc))
  {
    var required := TitleYears(jobTitle);
    var ms := YearMentions(jobDesc);
    if ms != [] {
      required := MaxLoop(ms);
    }
    score := ExperienceScore(years, required);
  }

  // ---------------------------------------------------------------- description score

  /** The keywords that occur in the description, in list order. */
  function FoundIn(desc: string, keywords: seq<string>): (r: seq<string>)
    ensures |r| <= |keywords|
    ensures forall x :: x in r <==> x in keywords && Contains(desc, x)
    ensures NoDuplicates(keywords) ==> NoDuplicates(r)
  {
    if keywords == [] then []
    else
      var init := keywords[..|keywords| - 1];
      var k := keywords[|keywords| - 1];
      assert forall x :: x in keywords <==> x in init || x == k;
      FoundIn(desc, init) + (if Contains(desc, k) then [k] else [])
  }

  /** `_score_description_match`'s score: one point per keyword found, at most 10. */
  function DescriptionScore(desc: string, keywords: seq<string>): int {
    Min(|FoundIn(desc, keywords)|, 10)
  }

  /** The set of keywords occurring in the description. */
  function FoundSet(desc: string, keywords: seq<string>): set<string> {
    set k | k in keywords && Contains(desc, k)
  }

  /** For distinct keywords, the description part counts the keywords found, capped at 10. */
  lemma DescriptionScoreSpec(desc: string, keywords: seq<string>)
    requires NoDuplicates(keywords)
    ensures DescriptionScore(desc, keywords) == Min(|FoundSet(desc, keywords)|, 10)
    ensures 0 <= DescriptionScore(desc, keywords) <= 10
  {
    var r := FoundIn(desc, keywords);
    DistinctCard(r);
    var found := FoundSet(desc, keywords);
    assert forall x :: x in r <==> x in found;
    assert (set x | x in r) == found;
    assert |r| == |found|;
    assert DescriptionScore(desc, keywords) == Min(|r|, 10);
  }

  /** `_score_description_match`, keyword by keyword: the score and the first five matches. */
  method ScoreDescriptionMatch(desc: string, keywords: seq<string>) returns (score: int, matches: seq<string>)
    ensures score == DescriptionScore(desc, keywords)
    ensures matches == Take(FoundIn(desc, keywords), 5)
  {
    var found: seq<string> := [];
    for i := 0 to |keywords|
      invariant found == FoundIn(desc, keywords[..i])
    {
      assert keywords[..i + 1][..i] == keywords[..i];
      if Contains(desc, keywords[i]) {
        found := found + [keywords[i]];
      }
    }
    assert keywords[..|keywords|] == keywords;
    score := Min(|found|, 10);
    matches := Take(found, 5);
  }

  // ---------------------------------------------------------------- matching

  /** A job as the search returns it: only its title and description are read. */
  datatype Job = Job(title: string, description: string)

  /** The four parts of a job's score. */
  datatype Breakdown = Breakdown(title: int, skills: real, experience: int, description: int)

  /** A job with its score, its matched keywords and the score's parts. */
  datatype ScoredJob = ScoredJob(job: Job, matchScore: int, matchedKeywords: seq<string>, breakdown: Breakdown)

  /** What the matcher reads from the résumé once, before scoring the jobs. */
  datatype Profile = Profile(titles: seq<string>, skills: Weights, years: nat, keywords: seq<string>)

  /** `p` is what the extraction steps give for the résumé, each set in some order. */
  ghost predicate ProfileOf(p: Profile, resume: ResumeData, table: map<string, nat>) {
    && NoDuplicates(p.titles) && (forall t :: t in p.titles <==> t in TitlesOf(resume.experience))
    && DistinctNames(p.skills) && TableWeighted(p.skills, table)
    && (forall k :: HasName(p.skills, k) <==> k in SkillKeys(resume, table))
    && p.years == YearsAsWritten(resume)
    && NoDuplicates(p.keywords) && (forall k :: k in p.keywords <==> k in KeywordSet(resume))
  }

  function JobTitle(job: Job): string {
    Lower(job.title)
  }

  function JobDesc(job: Job): string {
    Lower(job.description)
  }

  /** The four parts for a job. */
  function BreakdownOf(job: Job, p: Profile, pm: seq<string>): Breakdown {
    Breakdown(TitleScore(JobTitle(job), p.titles, pm).0,
              SkillsScore(JobTitle(job) + " " + JobDesc(job), p.skills),
              ExperienceScore(p.years, RequiredYears(JobTitle(job), JobDesc(job))),
              DescriptionScore(JobDesc(job), p.keywords))
  }

  /** Everything noted as matched: titles, skills, and the first five description keywords. */
  function MatchedItems(job: Job, p: Profile, pm: seq<string>): seq<string> {
    TitleScore(JobTitle(job), p.titles, pm).1
    + MatchedSkills(JobTitle(job) + " " + JobDesc(job), p.skills)
    + Take(FoundIn(JobDesc(job), p.keywords), 5)
  }

  function Total(b: Breakdown): real {
    b.title as real + b.skills + b.experience as real + b.description as real
  }

  /** `min(100, max(0, int(score)))`; the score is never negative, so `int` is the floor. */
  function MatchScore(b: Breakdown): int {
    Min(100, Max(0, Total(b).Floor))
  }

  /** Each part stays within its share: 40, 35, 15 and 10. */
  lemma BreakdownBounds(job: Job, p: Profile, pm: seq<string>)
    requires NoDuplicates(p.keywords)
    ensures var b := BreakdownOf(job, p, pm);
            && 0 <= b.title <= 40 && 0.0 <= b.skills <= 35.0
            && 0 <= b.experience <= 15 && 0 <= b.description <= 10
  {
    TitleScoreSpec(JobTitle(job), p.titles, pm);
    SkillsScoreSpec(JobTitle(job) + " " + JobDesc(job), p.skills);
    DescriptionScoreSpec(JobDesc(job), p.keywords);
  }

  /** The total lies in [0, 100], so the clamp never changes the score. */
  lemma ClampIdle(job: Job, p: Profile, pm: seq<string>)
    requires NoDuplicates(p.keywords)
    ensures var b := BreakdownOf(job, p, pm);
            && 0.0 <= Total(b) <= 100.0
            && MatchScore(b) == Total(b).Floor
            && 0 <= MatchScore(b) <= 100
  {
    BreakdownBounds(job, p, pm);
  }

  /** `s` is the job scored against the profile. */
  predicate ScoredAs(s: ScoredJob, job: Job, p: Profile, pm: seq<string>) {
    && s.job == job
    && s.breakdown == BreakdownOf(job, p, pm)
    && s.matchScore == MatchScore(s.breakdown)
    && NoDuplicates(s.matchedKeywords)
    && |s.matchedKeywords| == Min(10, |set x | x in MatchedItems(job, p, pm)|)
    && forall x :: x in s.matchedKeywords ==> x in MatchedItems(job, p, pm)
  }

  /** One pass of the loop of `match_jobs_to_resume`. */
  method ScoreJob(job: Job, p: Profile, pm: seq<string>) returns (s: ScoredJob)
    ensures ScoredAs(s, job, p, pm)
  {
    var title := Lower(job.title);
    var desc := Lower(job.description);
    var titleScore, titleMatches := ScoreTitleMatch(title, p.titles, pm);
    var skillsScore, skillMatches := ScoreSkillsMatch(title + " " + desc, p.skills);
    var expScore := ScoreExperienceMatch(title, desc, p.years);
    var descScore, descMatches := ScoreDescriptionMatch(desc, p.keywords);
    var b := Breakdown(titleScore, skillsScore, expScore, descScore);
    var items := titleMatches + skillMatches + descMatches;
    var distinct := ListOf(set x | x in items);
    assert items == MatchedItems(job, p, pm);
    s := ScoredJob(job, MatchScore(b), Take(distinct, 10), b);
    NoDuplicatesPrefix(distinct, |s.matchedKeywords|);
    assert forall x :: x in s.matchedKeywords ==> x in distinct;
  }

  /** The sort key: higher scores first. */
  function ScoreKey(s: ScoredJob): Key {
    (-s.matchScore, 0.0)
  }

  /**
   * `match_jobs_to_resume`: the profile is read once, every job is scored,
   * and the scored jobs are sorted by score, highest first. The sort is
   * stable, so jobs with equal scores keep their order.
   */
  method MatchJobs(jobs: seq<Job>, resume: ResumeData, lex: Lexicon)
    returns (ranked: seq<ScoredJob>, p: Profile, ghost scored: seq<ScoredJob>)
    ensures ProfileOf(p, resume, lex.skillWeights)
    ensures |scored| == |jobs| && forall i :: 0 <= i < |jobs| ==> ScoredAs(scored[i], jobs[i], p, lex.pmTitles)
    ensures SortedBy(ranked, ScoreKey)
    ensures multiset(ranked) == multiset(scored)
    ensures forall k :: WithKey(ranked, ScoreKey, k) == WithKey(scored, ScoreKey, k)
  {
    p := ReadProfile(resume, lex.skillWeights);
    var all: seq<ScoredJob> := [];
    for i := 0 to |jobs|
      invariant |all| == i
      invariant forall j :: 0 <= j < i ==> ScoredAs(all[j], jobs[j], p, lex.pmTitles)
    {
      var s := ScoreJob(jobs[i], p, lex.pmTitles);
      all := all + [s];
    }
    scored := all;
    ranked := SortBy(all, ScoreKey);
    SortBySpec(all, ScoreKey);
    forall k
      ensures WithKey(ranked, ScoreKey, k) == WithKey(scored, ScoreKey, k)
    {
      SortByStable(all, ScoreKey, k);
    }
  }

  /** The four extraction steps. */
  method ReadProfile(resume: ResumeData, table: map<string, nat>) returns (p: Profile)
    ensures ProfileOf(p, resume, table)
  {
    var titles := ExtractJobTitles(resume);
    var skills := ExtractSkills(resume, table);
    var years := EstimateExperienceYears(resume);
    var keywords := ExtractAllKeywords(resume);
    var listed := ListOf(keywords);
    p := Profile(titles, skills, years, listed);
  }

  /** Every ranked job's score is its clamped total, which the clamp leaves as it is. */
  lemma RankedScores(ranked: seq<ScoredJob>, scored: seq<ScoredJob>, jobs: seq<Job>, p: Profile, pm: seq<string>)
    requires NoDuplicates(p.keywords)
    requires |scored| == |jobs| && forall i :: 0 <= i < |jobs| ==> ScoredAs(scored[i], jobs[i], p, pm)
    requires multiset(ranked) == multiset(scored)
    ensures forall s :: s in ranked ==> s.job in jobs && s.matchScore == Total(s.breakdown).Floor && 0 <= s.matchScore <= 100
  {
    forall s | s in ranked
      ensures s.job in jobs && s.matchScore == Total(s.breakdown).Floor && 0 <= s.matchScore <= 100
    {
      assert s in multiset(scored);
      var i :| 0 <= i < |scored| && scored[i] == s;
      ClampIdle(jobs[i], p, pm);
    }
  }

  /** `match_jobs_to_resume` with the class's own tables. */
  method MatchJobsToResume(jobs: seq<Job>, resume: ResumeData) returns (ranked: seq<ScoredJob>)
    ensures |ranked| == |jobs|
    ensures SortedBy(ranked, ScoreKey)
    ensures forall s :: s in ranked ==> s.job in jobs && 0 <= s.matchScore <= 100
  {
    var p; ghost var scored;
    ranked, p, scored := MatchJobs(jobs, resume, Adzuna);
    assert |ranked| == |multiset(ranked)| == |multiset(scored)| == |scored|;
    RankedScores(ranked, scored, jobs, p, Adzuna.pmTitles);
  }

  // ---------------------------------------------------------------- search keywords

  /** The position of the first `)`. */
  function CloseAt(s: string): (i: nat)
    requires ')' in s
    ensures i < |s| && s[i] == ')'
    ensures forall j :: 0 <= j < i ==> s[j] != ')'
  {
    if s[0] == ')' then 0 else 1 + CloseAt(s[1..])
  }

  /**
   * `re.sub(r'\([^)]*\)', '', s)`: a `(` with a `)` after it is removed up to
   * and including the first such `)`; a `(` without one is kept.
   */
  function DropParens(s: string): (r: string)
    ensures forall c :: c in r ==> c in s
    ensures forall i, j :: 0 <= i < j < |r| && r[i] == '(' ==> r[j] != ')'
    decreases |s|
  {
    if s == [] then []
    else if s[0] == '(' && ')' in s then DropParens(s[CloseAt(s) + 1..])
    else
      var rest := DropParens(s[1..]);
      assert forall c :: c in rest ==> c in s;
      [s[0]] + rest
  }

  /** The cleaned title: before `|`, before `,`, without parenthesised parts, whitespace collapsed, stripped. */
  function CleanTitle(title: string): string {
    var a := Strip(Split(title, '|')[0]);
    var b := Strip(Split(a, ',')[0]);
    var c := Strip(DropParens(b));
    Strip(JdSections.Collapse(c))
  }

  /** Collapsing whitespace only adds spaces. */
  lemma {:induction false} CollapseWithin(s: string)
    ensures forall c :: c in JdSections.Collapse(s) ==> c in s || c == ' '
    decreases |s|
  {
    if s != [] {
      if IsSpace(s[0]) {
        var t := TrimStart(s);
        CollapseWithin(t);
        assert forall c :: c in t ==> c in s;
      } else {
        CollapseWithin(s[1..]);
      }
    }
  }

  /** A cleaned title holds no `|` and no `,`. */
  lemma CleanTitleShape(title: string)
    ensures '|' !in CleanTitle(title) && ',' !in CleanTitle(title)
  {
    var a := Strip(Split(title, '|')[0]);
    StripWithin(Split(title, '|')[0]);
    SplitWithin(a, ',');
    var b := Strip(Split(a, ',')[0]);
    StripWithin(Split(a, ',')[0]);
    assert '|' !in a;
    assert '|' !in b;
    var c := Strip(DropParens(b));
    StripWithin(DropParens(b));
    CollapseWithin(c);
    StripWithin(JdSections.Collapse(c));
  }

  /** A cleaned title looks like a job title: non-empty, under 40 characters, with a title word. */
  predicate TitleLike(c: string, words: seq<string>) {
    c != "" && |c| < 40 && exists w :: w in Words(Lower(c)) && w in words
  }

  /** The cleaned title of an entry with a title, when it looks like a job title. */
  function KeptTitle(e: ExperienceEntry, words: seq<string>): Option<string> {
    if e.title != "" && TitleLike(CleanTitle(e.title), words) then Some(CleanTitle(e.title)) else None
  }

  function KeptTitleOf(words: seq<string>): ExperienceEntry -> Option<string> {
    e => KeptTitle(e, words)
  }

  /** The kept titles, each once, in the order first met. */
  function SearchTitles(es: seq<ExperienceEntry>, words: seq<string>): seq<string> {
    AppendAbsent([], FilterMap(es, KeptTitleOf(words)))
  }

  /** Some keyword mentions "product", in any case. */
  predicate MentionsProduct(ks: seq<string>) {
    exists k :: k in ks && Contains(Lower(k), "product")
  }

  /** The end of `extract_search_keywords`: "Product Manager" put first when called for, the fallback, the first four. */
  function Finish(ks: seq<string>): seq<string> {
    var withPm := if MentionsProduct(ks) && DefaultKeyword !in ks then [DefaultKeyword] + ks else ks;
    Take(if withPm == [] then [DefaultKeyword] else withPm, 4)
  }

  /** `extract_search_keywords` */
  function SearchKeywords(es: seq<ExperienceEntry>, words: seq<string>): seq<string> {
    Finish(SearchTitles(es, words))
  }

  lemma FinishSpec(ks: seq<string>)
    requires NoDuplicates(ks)
    ensures var r := Finish(ks);
            && 1 <= |r| <= 4
            && NoDuplicates(r)
            && (forall k :: k in r ==> k == DefaultKeyword || k in ks)
            && (MentionsProduct(ks) && DefaultKeyword !in ks ==> r[0] == DefaultKeyword)
            && (ks == [] ==> r == [DefaultKeyword])
  {
    var withPm := if MentionsProduct(ks) && DefaultKeyword !in ks then [DefaultKeyword] + ks else ks;
    var full := if withPm == [] then [DefaultKeyword] else withPm;
    assert NoDuplicates(full) by {
      if MentionsProduct(ks) && DefaultKeyword !in ks {
        assert forall j :: 0 < j < |full| ==> full[j] == ks[j - 1];
      }
    }
    assert forall k :: k in full ==> k == DefaultKeyword || k in ks;
    TakeSpec(full, 4);
  }

  /** The first `n` of a duplicate-free list are duplicate-free and come from it. */
  lemma TakeSpec<T>(s: seq<T>, n: nat)
    requires NoDuplicates(s)
    ensures NoDuplicates(Take(s, n)) && forall x :: x in Take(s, n) ==> x in s
  {
    NoDuplicatesPrefix(s, |Take(s, n)|);
  }

  /** The titles kept are distinct and are exactly the entries' kept titles. */
  lemma SearchTitlesSpec(es: seq<ExperienceEntry>, words: seq<string>)
    ensures NoDuplicates(SearchTitles(es, words))
    ensures forall k :: k in SearchTitles(es, words) <==> exists i :: 0 <= i < |es| && KeptTitle(es[i], words) == Some(k)
  {
    var f := KeptTitleOf(words);
    AppendAbsentSpec([], FilterMap(es, f));
    FilterMapFrom(es, f);
    forall i | 0 <= i < |es| && KeptTitle(es[i], words).Some?
      ensures KeptTitle(es[i], words).value in FilterMap(es, f)
    {
      FilterMapHas(es, f, i);
    }
    forall k | k in FilterMap(es, f)
      ensures exists i :: 0 <= i < |es| && KeptTitle(es[i], words) == Some(k)
    {
      var e :| e in es && f(e) == Some(k);
      var i :| 0 <= i < |es| && es[i] == e;
    }
  }

  /**
   * The search keywords are one to four distinct keywords: "Product Manager"
   * or a kept title. "Product Manager" is put first when a kept title
   * mentions "product" and it is not among them, and stands alone when no
   * title is kept.
   */
  lemma SearchKeywordsSpec(es: seq<ExperienceEntry>, words: seq<string>)
    ensures var r := SearchKeywords(es, words);
            && 1 <= |r| <= 4
            && NoDuplicates(r)
            && (forall k :: k in r ==> k == DefaultKeyword || exists i :: 0 <= i < |es| && KeptTitle(es[i], words) == Some(k))
            && (MentionsProduct(SearchTitles(es, words)) && DefaultKeyword !in SearchTitles(es, words) ==> r[0] == DefaultKeyword)
            && (SearchTitles(es, words) == [] ==> r == [DefaultKeyword])
  {
    SearchTitlesSpec(es, words);
    FinishSpec(SearchTitles(es, words));
  }

  /** `extract_search_keywords`, entry by entry. */
  method ExtractSearchKeywords(resume: ResumeData, words: seq<string>) returns (keywords: seq<string>)
    ensures keywords == SearchKeywords(resume.experience, words)
  {
    var ks := DistinctFilterMapLoop(resume.experience, KeptTitleOf(words));
    if MentionsProduct(ks) && DefaultKeyword !in ks {
      ks := [DefaultKeyword] + ks;
    }
    if ks == [] {
      ks := [DefaultKeyword];
    }
    keywords := Take(ks, 4);
  }

  // ---------------------------------------------------------------- query

  /** A keyword, stripped, kept when 3 to 49 characters long. */
  function QueryTerm(k: string): Option<string> {
    var t := Strip(k);
    if 2 < |t| < 50 then Some(t) else None
  }

  function QueryTerms(ks: seq<string>): seq<string> {
    FilterMap(ks, QueryTerm)
  }

  /** The `what` query of `search_jobs`: the terms joined by " OR ", then " remote" when asked. */
  function Query(keywords: seq<string>, remoteOnly: bool): string {
    var terms := QueryTerms(Take(keywords, 4));
    Join(if terms == [] then [DefaultKeyword] else terms, " OR ") + (if remoteOnly then " remote" else "")
  }

  /**
   * The query names every usable keyword among the first four, falls back
   * to "Product Manager", and ends with " remote" when only remote jobs are asked for.
   */
  lemma QuerySpec(keywords: seq<string>, remoteOnly: bool)
    ensures var q := Query(keywords, remoteOnly);
            && (forall i :: 0 <= i < |keywords| && i < 4 && 2 < |Strip(keywords[i])| < 50 ==> Contains(q, Strip(keywords[i])))
            && (QueryTerms(Take(keywords, 4)) == [] ==> StartsWith(q, DefaultKeyword))
            && (remoteOnly ==> EndsWith(q, " remote"))
  {
    var ks := Take(keywords, 4);
    var terms := QueryTerms(ks);
    var parts := if terms == [] then [DefaultKeyword] else terms;
    var suffix := if remoteOnly then " remote" else "";
    forall i | 0 <= i < |keywords| && i < 4 && 2 < |Strip(keywords[i])| < 50
      ensures Contains(Join(parts, " OR ") + suffix, Strip(keywords[i]))
    {
      assert ks[i] == keywords[i];
      FilterMapHas(ks, QueryTerm, i);
      JoinedContains(parts, suffix, Strip(keywords[i]));
    }
    JoinedEnds(parts, suffix);
  }

  lemma JoinedContains(parts: seq<string>, suffix: string, x: string)
    requires x in parts
    ensures Contains(Join(parts, " OR ") + suffix, x)
  {
    JoinContainsPart(parts, " OR ", x);
    ContainsExtend([], Join(parts, " OR "), suffix, x);
    assert [] + Join(parts, " OR ") + suffix == Join(parts, " OR ") + suffix;
  }

  lemma JoinedEnds(parts: seq<string>, suffix: string)
    ensures parts == [DefaultKeyword] ==> StartsWith(Join(parts, " OR ") + suffix, DefaultKeyword)
    ensures EndsWith(Join(parts, " OR ") + suffix, suffix)
  {
    EndsWithAppend(Join(parts, " OR "), suffix);
    if parts == [DefaultKeyword] {
      assert (Join(parts, " OR ") + suffix)[..|DefaultKeyword|] == DefaultKeyword;
    }
  }

  /** The query of `search_jobs`, keyword by keyword. */
  method BuildQuery(keywords: seq<string>, remoteOnly: bool) returns (query: string)
    ensures query == Query(keywords, remoteOnly)
  {
    var ks := Take(keywords, 4);
    var terms: seq<string> := [];
    for i := 0 to |ks|
      invariant terms == QueryTerms(ks[..i])
    {
      FilterMapNext(ks, i, QueryTerm);
      var k := Strip(ks[i]);
      if 2 < |k| < 50 {
        terms := terms + [k];
      }
    }
    assert ks[..|ks|] == ks;
    if terms == [] {
      terms := [DefaultKeyword];
    }
    query := Join(terms, " OR ");
    if remoteOnly {
      query := query + " remote";
    }
  }
}
