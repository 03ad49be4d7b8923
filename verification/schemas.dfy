/**
 * The records the matcher stores and exchanges: a parsed résumé, a parsed job
 * description, a score breakdown and an edit suggestion.  Optional fields are
 * `Option`s, lists are sequences, and the opaque formatting dictionaries are
 * string-to-string maps.
 */
module Schemas {
  import opened Wrappers

  /** The run-level formatting side table; its contents are never inspected. */
  type Formatting = map<string, string>

  datatype PersonalInfo = PersonalInfo(
    name: Option<string>,
    email: Option<string>,
    phone: Option<string>,
    location: Option<string>,
    linkedin: Option<string>)

  datatype BulletPoint = BulletPoint(text: string, formatting: Option<Formatting>)

  datatype ExperienceEntry = ExperienceEntry(
    company: string,
    title: string,
    location: Option<string>,
    startDate: Option<string>,
    endDate: Option<string>,
    bullets: seq<BulletPoint>)

  datatype EducationEntry = EducationEntry(
    institution: string,
    degree: string,
    field: Option<string>,
    location: Option<string>,
    graduationDate: Option<string>)

  datatype ResumeData = ResumeData(
    personalInfo: PersonalInfo,
    summary: Option<string>,
    experience: seq<ExperienceEntry>,
    education: seq<EducationEntry>,
    skills: seq<string>,
    formattingMap: Option<Formatting>)

  datatype JobDescription = JobDescription(
    roleTitle: string,
    roleSummary: Option<string>,
    company: Option<string>,
    location: Option<string>,
    experienceLevel: Option<string>,
    teamScope: Option<string>,
    industryDomain: Option<string>,
    mustHaveRequirements: seq<string>,
    niceToHaveRequirements: seq<string>,
    technicalSkills: seq<string>,
    softSkills: seq<string>,
    keywordsToInclude: seq<string>,
    responsibilities: seq<string>,
    requirements: seq<string>,
    preferredQualifications: seq<string>,
    requiredSkills: seq<string>,
    preferredSkills: seq<string>,
    keywords: seq<string>,
    rawText: Option<string>)

  /** The completeness dictionary keeps its insertion order, so it is a list of pairs. */
  datatype ScoreBreakdown = ScoreBreakdown(
    keywordScore: real,
    skillScore: real,
    completenessScore: real,
    matchedKeywords: seq<string>,
    missingKeywords: seq<string>,
    matchedSkills: seq<string>,
    missingSkills: seq<string>,
    sectionCompleteness: seq<(string, bool)>)

  datatype Suggestion = Suggestion(
    id: string,
    sectionType: string,
    sectionId: Option<string>,
    originalText: string,
    suggestedText: string,
    reason: string,
    expectedScoreDelta: real,
    jdMapping: Option<string>,
    category: Option<string>,
    priority: Option<string>)

  /** Python truthiness of an optional string: present and non-empty. */
  predicate Truthy(s: Option<string>) {
    s.Some? && s.value != ""
  }

  /** `PersonalInfo()`: every field absent. */
  function NoPersonalInfo(): PersonalInfo {
    PersonalInfo(None, None, None, None, None)
  }

  /** `ResumeData(personal_info=p)` with every other field at its default. */
  function NewResume(p: PersonalInfo): ResumeData {
    ResumeData(p, None, [], [], [], None)
  }

  /** `JobDescription(role_title=t)` with every other field at its default. */
  function NewJobDescription(title: string): JobDescription {
    JobDescription(title, None, None, None, None, None, None,
                   [], [], [], [], [], [], [], [], [], [], [], None)
  }

  /** The bullet texts of one experience entry, in order. */
  function BulletTexts(bs: seq<BulletPoint>): (r: seq<string>)
    ensures |r| == |bs|
    ensures forall j :: 0 <= j < |bs| ==> r[j] == bs[j].text
  {
    if bs == [] then [] else BulletTexts(bs[..|bs| - 1]) + [bs[|bs| - 1].text]
  }

  /** All bullet texts of all experience entries, entry by entry. */
  function AllBulletTexts(es: seq<ExperienceEntry>): seq<string> {
    if es == [] then [] else AllBulletTexts(es[..|es| - 1]) + BulletTexts(es[|es| - 1].bullets)
  }

  /** A bullet of any entry appears among the flattened bullet texts. */
  lemma {:induction false} BulletInAllBulletTexts(es: seq<ExperienceEntry>, i: int, j: int)
    requires 0 <= i < |es| && 0 <= j < |es[i].bullets|
    ensures es[i].bullets[j].text in AllBulletTexts(es)
  {
    if i < |es| - 1 {
      BulletInAllBulletTexts(es[..|es| - 1], i, j);
    } else {
      assert BulletTexts(es[i].bullets)[j] == es[i].bullets[j].text;
    }
  }

  /** Every flattened bullet text is the text of some entry's bullet. */
  lemma {:induction false} AllBulletTextsFrom(es: seq<ExperienceEntry>, t: string)
    requires t in AllBulletTexts(es)
    ensures exists i, j :: 0 <= i < |es| && 0 <= j < |es[i].bullets| && es[i].bullets[j].text == t
  {
    var last := es[|es| - 1];
    if t in AllBulletTexts(es[..|es| - 1]) {
      AllBulletTextsFrom(es[..|es| - 1], t);
      var i, j :| 0 <= i < |es| - 1 && 0 <= j < |es[..|es| - 1][i].bullets| && es[..|es| - 1][i].bullets[j].text == t;
      assert es[i] == es[..|es| - 1][i];
    } else {
      var j :| 0 <= j < |last.bullets| && BulletTexts(last.bullets)[j] == t;
      assert es[|es| - 1].bullets[j].text == t;
    }
  }
}
