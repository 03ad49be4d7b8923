/**
 * The deterministic half of the batch suggestion generator: filtering and
 * truncating the items of the model's reply, the rule-based missing-skill
 * suggestions, ordering by expected score gain, the job-description digest
 * and the shaping of the fit summary.  The reply, `json.loads`, the skills
 * regular expression and `uuid4()` are parameters.
 */
module SuggestionEngine {
  import opened Wrappers
  import opened Text
  import opened Collections
  import opened Schemas
  import opened LlmReply
  import opened Sorting
  import opened SimpleSuggestions

  // ---------------------------------------------------------------- missing skills

  /** One skill matches another (both lower-cased and trimmed): equal, or one contains the other. */
  predicate SkillMatch(jdSkill: string, resumeSkill: string) {
    jdSkill == resumeSkill || Contains(resumeSkill, jdSkill) || Contains(jdSkill, resumeSkill)
  }

  /** `[s.lower().strip() for s in skills]` */
  function Normalized(skills: seq<string>): (r: seq<string>)
    ensures |r| == |skills| && forall i :: 0 <= i < |skills| ==> r[i] == Strip(Lower(skills[i]))
  {
    seq(|skills|, i requires 0 <= i < |skills| => Strip(Lower(skills[i])))
  }

  /** A lower-cased, trimmed skill matches one of the normalised résumé skills. */
  predicate MatchesAny(jdSkillLower: string, resumeSkillsLower: seq<string>) {
    exists rs :: rs in resumeSkillsLower && SkillMatch(jdSkillLower, rs)
  }

  /** A job-description skill is present in the résumé when it matches some normalised résumé skill. */
  predicate Present(jdSkill: string, resumeSkills: seq<string>) {
    MatchesAny(Strip(Lower(jdSkill)), Normalized(resumeSkills))
  }

  /** The job-description skills not present in the résumé, in their original order. */
  function Missing(jdSkills: seq<string>, resumeSkills: seq<string>): (r: seq<string>)
    ensures |r| <= |jdSkills|
  {
    Filter(jdSkills, x => !Present(x, resumeSkills))
  }

  /** A skill is reported missing exactly when it is a job-description skill the résumé does not have. */
  lemma MissingSpec(jdSkills: seq<string>, resumeSkills: seq<string>)
    ensures forall x :: x in Missing(jdSkills, resumeSkills) <==> x in jdSkills && !Present(x, resumeSkills)
  {
    FilterSpec(jdSkills, x => !Present(x, resumeSkills));
  }

  /** The inner loop: does the lower-cased, trimmed skill match a normalised résumé skill?  It stops at the first match. */
  method IsPresent(jdSkillLower: string, resumeSkillsLower: seq<string>) returns (found: bool)
    ensures found <==> MatchesAny(jdSkillLower, resumeSkillsLower)
  {
    found := false;
    for k := 0 to |resumeSkillsLower|
      invariant forall m :: 0 <= m < k ==> !SkillMatch(jdSkillLower, resumeSkillsLower[m])
    {
      if SkillMatch(jdSkillLower, resumeSkillsLower[k]) {
        found := true;
        return;
      }
    }
  }

  /** The outer loop collecting the missing skills. */
  method MissingSkills(jdSkills: seq<string>, resumeSkillsLower: seq<string>, ghost resumeSkills: seq<string>)
    returns (missing: seq<string>)
    requires resumeSkillsLower == Normalized(resumeSkills)
    ensures missing == Missing(jdSkills, resumeSkills)
  {
    missing := [];
    for i := 0 to |jdSkills|
      invariant missing == Missing(jdSkills[..i], resumeSkills)
    {
      assert jdSkills[..i + 1][..i] == jdSkills[..i];
      var jdSkillLower := Strip(Lower(jdSkills[i]));
      var found := IsPresent(jdSkillLower, resumeSkillsLower);
      if !found {
        missing := missing + [jdSkills[i]];
      }
    }
    assert jdSkills[..|jdSkills|] == jdSkills;
  }

  /** `', '.join(skills[:10])`, followed by `", ... (N more)"` when there are more than ten. */
  function Display(skills: seq<string>): string {
    Join(Take(skills, 10), ", ")
    + (if |skills| > 10 then ", ... (" + NatToString(|skills| - 10) + " more)" else "")
  }

  /** The text after the first ten skills. */
  function MoreNote(skills: seq<string>): string {
    if |skills| > 10 then ", ... (" + NatToString(|skills| - 10) + " more)" else ""
  }

  lemma DisplayParts(skills: seq<string>)
    ensures Display(skills) == Join(Take(skills, 10), ", ") + MoreNote(skills)
  {
  }

  lemma DisplayShows(skills: seq<string>, k: nat)
    requires k < |skills| && k < 10
    ensures Contains(Display(skills), skills[k])
  {
    var shown := Take(skills, 10);
    var note := MoreNote(skills);
    DisplayParts(skills);
    assert shown[k] == skills[k];
    JoinContainsPart(shown, ", ", skills[k]);
    ContainsExtend([], Join(shown, ", "), note, skills[k]);
    assert [] + Join(shown, ", ") + note == Display(skills);
  }

  lemma DisplaySplit(skills: seq<string>)
    requires |skills| > 10
    ensures Display(skills) == (Join(Take(skills, 10), ", ") + ", ...") + (" (" + NatToString(|skills| - 10) + " more)")
  {
    var n := NatToString(|skills| - 10);
    DisplayParts(skills);
    assert ", ... (" == ", ..." + " (";
    assert MoreNote(skills) == ", ... (" + n + " more)";
  }

  lemma DisplayCounts(skills: seq<string>)
    requires |skills| > 10
    ensures EndsWith(Display(skills), " (" + NatToString(|skills| - 10) + " more)")
  {
    DisplaySplit(skills);
    EndsWithAppend(Join(Take(skills, 10), ", ") + ", ...", " (" + NatToString(|skills| - 10) + " more)");
  }

  /** Up to ten skills are shown in full; beyond that the first ten are shown and the rest counted. */
  lemma DisplaySpec(skills: seq<string>)
    ensures |skills| <= 10 ==> Display(skills) == Join(skills, ", ")
    ensures forall k :: 0 <= k < |skills| && k < 10 ==> Contains(Display(skills), skills[k])
    ensures |skills| > 10 ==> EndsWith(Display(skills), " (" + NatToString(|skills| - 10) + " more)")
  {
    forall k | 0 <= k < |skills| && k < 10 ensures Contains(Display(skills), skills[k]) {
      DisplayShows(skills, k);
    }
    if |skills| > 10 {
      DisplayCounts(skills);
    }
  }

  /** The suggestion to add one skill; `required` selects the wording and the gain (5.0 or 2.0). */
  function SkillSuggestion(id: string, resumeSkills: seq<string>, skill: string, required: bool): Suggestion {
    if required then
      Suggestion(id, "skill", Some("skills_section"), Display(resumeSkills), Display(resumeSkills + [skill]),
                 "Add required skill '" + skill + "' from job description to improve keyword match",
                 5.0, Some("Required skill: " + skill), None, None)
    else
      Suggestion(id, "skill", Some("skills_section"), Display(resumeSkills), Display(resumeSkills + [skill]),
                 "Add preferred skill '" + skill + "' to strengthen application",
                 2.0, Some("Preferred skill: " + skill), None, None)
  }

  /** A skill suggestion shows the current skills and the skills with the new one appended, in the skills section. */
  lemma SkillSuggestionShape(id: string, resumeSkills: seq<string>, skill: string, required: bool)
    ensures var s := SkillSuggestion(id, resumeSkills, skill, required);
            && s.sectionType == "skill" && s.sectionId == Some("skills_section")
            && s.expectedScoreDelta == (if required then 5.0 else 2.0)
            && s.originalText == Display(resumeSkills) && s.suggestedText == Display(resumeSkills + [skill])
  {
  }

  /** One suggestion per skill, the `k`-th receiving the identifier `ids(first + k)`. */
  function SkillSuggestions(resumeSkills: seq<string>, skills: seq<string>, required: bool,
                            ids: nat -> string, first: nat): (r: seq<Suggestion>)
    ensures |r| == |skills|
    ensures forall k :: 0 <= k < |skills| ==> r[k] == SkillSuggestion(ids(first + k), resumeSkills, skills[k], required)
  {
    seq(|skills|, k requires 0 <= k < |skills| => SkillSuggestion(ids(first + k), resumeSkills, skills[k], required))
  }

  /** The suggestions for the first two missing required and the first missing preferred skill. */
  function SkillBlock(resumeSkills: seq<string>, missingRequired: seq<string>, missingPreferred: seq<string>,
                      ids: nat -> string): seq<Suggestion>
  {
    var required := Take(missingRequired, 2);
    var preferred := Take(missingPreferred, 1);
    SkillSuggestions(resumeSkills, required, true, ids, 0)
    + SkillSuggestions(resumeSkills, preferred, false, ids, |required|)
  }

  /** `_suggest_skill_additions`: nothing for a résumé without skills, else two missing required and one missing preferred skill at most. */
  function SkillAdditions(resume: ResumeData, jd: JobDescription, ids: nat -> string): seq<Suggestion> {
    if resume.skills == [] then []
    else SkillBlock(resume.skills, Missing(jd.requiredSkills, resume.skills), Missing(jd.preferredSkills, resume.skills), ids)
  }

  /** The required block comes first, numbered from 0, and the preferred suggestion follows it. */
  lemma SkillBlockSpec(resumeSkills: seq<string>, missingRequired: seq<string>, missingPreferred: seq<string>,
                       ids: nat -> string)
    ensures var r := SkillBlock(resumeSkills, missingRequired, missingPreferred, ids);
            var nRequired := Min(2, |missingRequired|);
            && |r| == nRequired + Min(1, |missingPreferred|)
            && (forall k :: 0 <= k < nRequired ==> r[k] == SkillSuggestion(ids(k), resumeSkills, missingRequired[k], true))
            && (missingPreferred != [] ==>
                  r[nRequired] == SkillSuggestion(ids(nRequired), resumeSkills, missingPreferred[0], false))
  {
    var required := Take(missingRequired, 2);
    var preferred := Take(missingPreferred, 1);
    var a := SkillSuggestions(resumeSkills, required, true, ids, 0);
    var b := SkillSuggestions(resumeSkills, preferred, false, ids, |required|);
    assert forall k :: 0 <= k < |required| ==> (a + b)[k] == a[k] && required[k] == missingRequired[k];
    if preferred != [] {
      assert (a + b)[|required|] == b[0];
    }
  }

  /**
   * No suggestion for a résumé without skills.  Otherwise the first
   * `min(2, #missing required)` suggestions add the first missing required
   * skills and are followed by at most one adding the first missing
   * preferred skill.
   */
  lemma SkillAdditionsSpec(resume: ResumeData, jd: JobDescription, ids: nat -> string)
    ensures resume.skills == [] ==> SkillAdditions(resume, jd, ids) == []
    ensures resume.skills != [] ==>
              var r := SkillAdditions(resume, jd, ids);
              var missingRequired := Missing(jd.requiredSkills, resume.skills);
              var missingPreferred := Missing(jd.preferredSkills, resume.skills);
              var nRequired := Min(2, |missingRequired|);
              && |r| == nRequired + Min(1, |missingPreferred|)
              && (forall k :: 0 <= k < nRequired ==> r[k] == SkillSuggestion(ids(k), resume.skills, missingRequired[k], true))
              && (missingPreferred != [] ==>
                    r[nRequired] == SkillSuggestion(ids(nRequired), resume.skills, missingPreferred[0], false))
  {
    if resume.skills != [] {
      SkillBlockSpec(resume.skills, Missing(jd.requiredSkills, resume.skills), Missing(jd.preferredSkills, resume.skills), ids);
    }
  }

  /** Every suggestion of a block targets the skills section, shows the current skills and gains 5.0 or 2.0; there are at most three. */
  lemma SkillBlockShape(resumeSkills: seq<string>, missingRequired: seq<string>, missingPreferred: seq<string>,
                        ids: nat -> string)
    ensures var r := SkillBlock(resumeSkills, missingRequired, missingPreferred, ids);
            && |r| <= 3
            && forall s :: s in r ==>
                 (s.sectionType == "skill" && s.sectionId == Some("skills_section") && s.originalText == Display(resumeSkills)
                  && (s.expectedScoreDelta == 5.0 || s.expectedScoreDelta == 2.0))
  {
    var required := Take(missingRequired, 2);
    var preferred := Take(missingPreferred, 1);
    var a := SkillSuggestions(resumeSkills, required, true, ids, 0);
    var b := SkillSuggestions(resumeSkills, preferred, false, ids, |required|);
    forall s: Suggestion | s in a + b
      ensures s.sectionType == "skill" && s.sectionId == Some("skills_section") && s.originalText == Display(resumeSkills)
              && (s.expectedScoreDelta == 5.0 || s.expectedScoreDelta == 2.0)
    {
      if s in a {
        var k :| 0 <= k < |a| && a[k] == s;
        SkillSuggestionShape(ids(k), resumeSkills, required[k], true);
      } else {
        var k :| 0 <= k < |b| && b[k] == s;
        SkillSuggestionShape(ids(|required| + k), resumeSkills, preferred[k], false);
      }
    }
  }

  /** Every skill suggestion targets the skills section, shows the current skills and gains 5.0 or 2.0; there are at most three. */
  lemma SkillAdditionsShape(resume: ResumeData, jd: JobDescription, ids: nat -> string)
    ensures var r := SkillAdditions(resume, jd, ids);
            && |r| <= 3
            && forall s :: s in r ==>
                 (s.sectionType == "skill" && s.sectionId == Some("skills_section") && s.originalText == Display(resume.skills)
                  && (s.expectedScoreDelta == 5.0 || s.expectedScoreDelta == 2.0))
  {
    if resume.skills != [] {
      SkillBlockShape(resume.skills, Missing(jd.requiredSkills, resume.skills), Missing(jd.preferredSkills, resume.skills), ids);
    }
  }

  lemma SkillSuggestionsSnoc(resumeSkills: seq<string>, skills: seq<string>, required: bool, ids: nat -> string,
                             first: nat, k: nat)
    requires k < |skills|
    ensures SkillSuggestions(resumeSkills, skills[..k + 1], required, ids, first)
            == SkillSuggestions(resumeSkills, skills[..k], required, ids, first)
               + [SkillSuggestion(ids(first + k), resumeSkills, skills[k], required)]
  {
    var a := SkillSuggestions(resumeSkills, skills[..k + 1], required, ids, first);
    var b := SkillSuggestions(resumeSkills, skills[..k], required, ids, first);
    forall j | 0 <= j < k ensures a[j] == b[j] {
      assert skills[..k + 1][j] == skills[..k][j];
    }
    Snoc(a, b, SkillSuggestion(ids(first + k), resumeSkills, skills[k], required));
  }

  lemma Snoc<T>(a: seq<T>, b: seq<T>, x: T)
    requires |a| == |b| + 1 && a[|b|] == x
    requires forall j :: 0 <= j < |b| ==> a[j] == b[j]
    ensures a == b + [x]
  {
  }

  lemma EmptyPrefix<T>(s: seq<T>)
    ensures [] + s == s
  {
  }

  /** One of the two suggestion loops: a suggestion per skill, appended in order. */
  method AppendSkillSuggestions(suggestions: seq<Suggestion>, resumeSkills: seq<string>, skills: seq<string>,
                                required: bool, ids: nat -> string, first: nat)
    returns (result: seq<Suggestion>)
    ensures result == suggestions + SkillSuggestions(resumeSkills, skills, required, ids, first)
  {
    result := suggestions;
    for k := 0 to |skills|
      invariant result == suggestions + SkillSuggestions(resumeSkills, skills[..k], required, ids, first)
    {
      SkillSuggestionsSnoc(resumeSkills, skills, required, ids, first, k);
      result := result + [SkillSuggestion(ids(first + k), resumeSkills, skills[k], required)];
    }
    assert skills[..|skills|] == skills;
  }

  /** `_suggest_skill_additions` as the loops that build it. */
  method SuggestSkillAdditions(resume: ResumeData, jd: JobDescription, ids: nat -> string)
    returns (suggestions: seq<Suggestion>)
    ensures suggestions == SkillAdditions(resume, jd, ids)
  {
    suggestions := [];
    if resume.skills == [] {
      return;
    }
    var resumeSkillsLower := Normalized(resume.skills);
    var missingRequired := MissingSkills(jd.requiredSkills, resumeSkillsLower, resume.skills);
    var missingPreferred := MissingSkills(jd.preferredSkills, resumeSkillsLower, resume.skills);
    var required := Take(missingRequired, 2);
    var preferred := Take(missingPreferred, 1);
    suggestions := AppendSkillSuggestions(suggestions, resume.skills, required, true, ids, 0);
    suggestions := AppendSkillSuggestions(suggestions, resume.skills, preferred, false, ids, |required|);
    EmptyPrefix(SkillSuggestions(resume.skills, required, true, ids, 0));
    assert suggestions == SkillBlock(resume.skills, missingRequired, missingPreferred, ids);
  }

  // ---------------------------------------------------------------- filtering the batch reply

  /** The length cap of a section type: 500 for a summary, 300 for skills, 200 otherwise. */
  function MaxLength(sectionType: string): nat {
    if sectionType == "summary" then 500 else if sectionType == "skill" then 300 else 200
  }

  /** The cap for the raw `section_type` value; a non-string value gets the default 200. */
  function MaxLengthOf(sectionType: Json): (n: nat)
    ensures n >= 200
  {
    if sectionType.Str? then MaxLength(sectionType.s) else 200
  }

  /** `text.split('.')[0] + '.'` when the text holds a full stop, else the text. */
  function FirstSentence(t: string): string {
    if '.' in t then Split(t, '.')[0] + "." else t
  }

  /**
   * A text more than twice the cap is cut down: for skills, to the captured
   * skills list when the upper-cased text mentions SKILLS and the skills
   * pattern matches (`skillsSection`); for bullets, to the first sentence.
   */
  function Shorten(t: string, sectionType: Json, skillsSection: string -> Option<string>): string {
    var maxLength := MaxLengthOf(sectionType);
    if |t| <= maxLength * 2 then t
    else if sectionType == Str("skill") && Contains(Upper(t), "SKILLS") then
      match skillsSection(t)
      case Some(g) => Take(Strip(g), maxLength)
      case None => t
    else if sectionType == Str("bullet") then Take(FirstSentence(t), maxLength)
    else t
  }

  /** What one reply item gives: the whole batch fails, the item is dropped, or a suggestion is made. */
  datatype ItemResult = Fails | Dropped | Made(s: Suggestion)

  /** `d.get(key, '').strip()`: `None` when the value is not a string (`.strip()` raises). */
  function StrippedText(fields: map<string, Json>, key: string): Option<string> {
    var v := Get(fields, key, Str(""));
    if v.Str? then Some(Strip(v.s)) else None
  }

  /** `d.get(key, default) or default`, which must then be a string. */
  function TextOr(fields: map<string, Json>, key: string, default: string): Option<string> {
    var v := Get(fields, key, Str(default));
    if !JsonTruthy(v) then Some(default) else Attribute(v)
  }

  /** Building the `Suggestion` from already capped texts; `None` when a field fails validation. */
  function MakeSuggestion(fields: map<string, Json>, id: string, original: string, suggested: string, toFloat: string -> Option<real>): (r: Option<Suggestion>)
    ensures r.Some? ==> r.value.id == id && r.value.originalText == original && r.value.suggestedText == suggested
    ensures r.Some? ==> Get(fields, "section_type", Str("bullet")) == Str(r.value.sectionType)
  {
    var sectionType := Get(fields, "section_type", Str("bullet"));
    var sectionId := OptionalText(Get(fields, "section_id", Str("unknown")));
    var reason := TextOr(fields, "reason", "Improves match to job description");
    var delta := AsFloat(Get(fields, "expected_score_delta", Num(2.0)), toFloat);
    var jdMapping := TextOr(fields, "jd_mapping", "");
    if sectionType.Str? && sectionId.Some? && reason.Some? && delta.Some? && jdMapping.Some? then
      Some(Suggestion(id, sectionType.s, sectionId.value, original, suggested, reason.value, delta.value,
                      Some(jdMapping.value), None, None))
    else None
  }

  /** The shortened, not yet capped texts of an item, with its section type; `None` when reading them raises. */
  function ItemTexts(item: Json, skillsSection: string -> Option<string>): (r: Option<(Json, string, string)>)
    ensures r.Some? ==> item.Obj? && r.value.0 == Get(item.fields, "section_type", Str("bullet"))
  {
    if !item.Obj? then None
    else
      var suggested := StrippedText(item.fields, "suggested_text");
      var original := StrippedText(item.fields, "original_text");
      if suggested.None? || original.None? then None
      else
        var sectionType := Get(item.fields, "section_type", Str("bullet"));
        Some((sectionType, Shorten(original.value, sectionType, skillsSection),
              Shorten(suggested.value, sectionType, skillsSection)))
  }

  /** One item as written: the texts are compared before they are cut to the cap. */
  function BatchItemAsWritten(item: Json, id: string, skillsSection: string -> Option<string>, toFloat: string -> Option<real>): (r: ItemResult)
    ensures r.Made? ==> r.s.id == id && 0 < |r.s.originalText| <= MaxLength(r.s.sectionType)
                        && 0 < |r.s.suggestedText| <= MaxLength(r.s.sectionType)
  {
    match ItemTexts(item, skillsSection)
    case None => Fails
    case Some((sectionType, original, suggested)) =>
      var maxLength := MaxLengthOf(sectionType);
      if original == "" || suggested == "" || original == suggested then Dropped
      else
        MadeOf(item.fields, id, sectionType, Take(original, maxLength), Take(suggested, maxLength), toFloat)
  }

  /** The suggestion made of two capped texts, or `Dropped` when a field fails validation. */
  function MadeOf(fields: map<string, Json>, id: string, sectionType: Json, o: string, s: string, toFloat: string -> Option<real>): (r: ItemResult)
    requires sectionType == Get(fields, "section_type", Str("bullet"))
    requires 0 < |o| <= MaxLengthOf(sectionType) && 0 < |s| <= MaxLengthOf(sectionType)
    ensures r != Fails
    ensures r.Made? ==> r.s.id == id && r.s.originalText == o && r.s.suggestedText == s
                        && |o| <= MaxLength(r.s.sectionType) && |s| <= MaxLength(r.s.sectionType)
  {
    match MakeSuggestion(fields, id, o, s, toFloat)
    case None => Dropped
    case Some(x) => Made(x)
  }

  /** One item, with the identity test made on the texts as they are stored. */
  function BatchItem(item: Json, id: string, skillsSection: string -> Option<string>, toFloat: string -> Option<real>): (r: ItemResult)
    ensures r.Made? ==> r.s.id == id && 0 < |r.s.originalText| <= MaxLength(r.s.sectionType)
                        && 0 < |r.s.suggestedText| <= MaxLength(r.s.sectionType)
                        && r.s.originalText != r.s.suggestedText
  {
    match ItemTexts(item, skillsSection)
    case None => Fails
    case Some((sectionType, original, suggested)) =>
      var maxLength := MaxLengthOf(sectionType);
      var o := Take(original, maxLength);
      var s := Take(suggested, maxLength);
      if o == "" || s == "" || o == s then Dropped
      else
        MadeOf(item.fields, id, sectionType, o, s, toFloat)
  }

  /** A text at most twice the smallest cap is never shortened. */
  lemma ShortUnchanged(t: string, sectionType: Json, skillsSection: string -> Option<string>)
    requires |t| <= 400
    ensures Shorten(t, sectionType, skillsSection) == t
  {
  }

  lemma StrippedTrimmed(fields: map<string, Json>, key: string, s: string)
    requires key in fields && fields[key] == Str(s) && Trimmed(s)
    ensures StrippedText(fields, key) == Some(s)
  {
    StripNoSpace(s);
  }

  lemma ItemTextsUnshortened(fields: map<string, Json>, original: string, suggested: string,
                              skillsSection: string -> Option<string>)
    requires StrippedText(fields, "original_text") == Some(original) && |original| <= 400
    requires StrippedText(fields, "suggested_text") == Some(suggested) && |suggested| <= 400
    requires "section_type" !in fields
    ensures ItemTexts(Obj(fields), skillsSection) == Some((Str("bullet"), original, suggested))
  {
    ShortUnchanged(original, Str("bullet"), skillsSection);
    ShortUnchanged(suggested, Str("bullet"), skillsSection);
  }

  /** An item object holding exactly the two texts and nothing else. */
  predicate TwoTexts(fields: map<string, Json>, original: string, suggested: string) {
    && fields.Keys == {"original_text", "suggested_text"}
    && fields["original_text"] == Str(original)
    && fields["suggested_text"] == Str(suggested)
  }

  /** The texts read from an item holding only two trimmed texts, each at most 400 characters. */
  lemma PlainItemTexts(fields: map<string, Json>, original: string, suggested: string,
                       skillsSection: string -> Option<string>)
    requires TwoTexts(fields, original, suggested)
    requires Trimmed(original) && Trimmed(suggested) && |original| <= 400 && |suggested| <= 400
    ensures ItemTexts(Obj(fields), skillsSection) == Some((Str("bullet"), original, suggested))
  {
    assert "section_type" !in fields by {
      assert |"section_type"| != |"original_text"| && |"section_type"| != |"suggested_text"|;
    }
    StrippedTrimmed(fields, "original_text", original);
    StrippedTrimmed(fields, "suggested_text", suggested);
    ItemTextsUnshortened(fields, original, suggested, skillsSection);
  }

  /** The defaults `MakeSuggestion` fills in for an item holding only its two texts. */
  lemma PlainMake(fields: map<string, Json>, id: string, original: string, suggested: string, toFloat: string -> Option<real>)
    requires fields.Keys == {"original_text", "suggested_text"}
    ensures MakeSuggestion(fields, id, original, suggested, toFloat)
            == Some(Suggestion(id, "bullet", Some("unknown"), original, suggested,
                               "Improves match to job description", 2.0, Some(""), None, None))
  {
    assert "section_type" !in fields && "section_id" !in fields && "reason" !in fields;
    assert "expected_score_delta" !in fields && "jd_mapping" !in fields;
  }

  /** Two short texts differing only after the cap are kept as written, yet store the same text twice. */
  lemma IdenticalAfterCap(fields: map<string, Json>, original: string, suggested: string, id: string,
                          skillsSection: string -> Option<string>, toFloat: string -> Option<real>)
    requires TwoTexts(fields, original, suggested)
    requires Trimmed(original) && Trimmed(suggested) && original != suggested
    requires |original| == 201 && |suggested| == 201 && original[..200] == suggested[..200]
    ensures var r := BatchItemAsWritten(Obj(fields), id, skillsSection, toFloat);
            && r.Made? && r.s.originalText == r.s.suggestedText
            && BatchItem(Obj(fields), id, skillsSection, toFloat) == Dropped
  {
    PlainItemTexts(fields, original, suggested, skillsSection);
    assert Take(original, 200) == Take(suggested, 200);
    PlainMake(fields, id, Take(original, 200), Take(suggested, 200), toFloat);
  }

  lemma BatchItemMade(item: Json, id: string, skillsSection: string -> Option<string>, toFloat: string -> Option<real>,
                      original: string, suggested: string, x: Suggestion)
    requires ItemTexts(item, skillsSection) == Some((Str("bullet"), original, suggested))
    requires original != "" && suggested != "" && original != suggested && |original| <= 200 && |suggested| <= 200
    requires item.Obj? && MakeSuggestion(item.fields, id, original, suggested, toFloat) == Some(x)
    ensures BatchItem(item, id, skillsSection, toFloat) == Made(x)
    ensures BatchItemAsWritten(item, id, skillsSection, toFloat) == Made(x)
  {
    assert Take(original, 200) == original && Take(suggested, 200) == suggested;
  }

  /** An item with just two short distinct texts gets every documented default. */
  lemma BatchItemDefaults(fields: map<string, Json>, original: string, suggested: string, id: string,
                          skillsSection: string -> Option<string>, toFloat: string -> Option<real>)
    requires TwoTexts(fields, original, suggested)
    requires Trimmed(original) && Trimmed(suggested) && original != "" && suggested != ""
    requires |original| <= 200 && |suggested| <= 200 && original != suggested
    ensures BatchItemAsWritten(Obj(fields), id, skillsSection, toFloat)
            == Made(Suggestion(id, "bullet", Some("unknown"), original, suggested,
                               "Improves match to job description", 2.0, Some(""), None, None))
    ensures BatchItem(Obj(fields), id, skillsSection, toFloat) == BatchItemAsWritten(Obj(fields), id, skillsSection, toFloat)
  {
    PlainItemTexts(fields, original, suggested, skillsSection);
    PlainMake(fields, id, original, suggested, toFloat);
    BatchItemMade(Obj(fields), id, skillsSection, toFloat, original, suggested,
                  Suggestion(id, "bullet", Some("unknown"), original, suggested,
                             "Improves match to job description", 2.0, Some(""), None, None));
  }

  /** The item `{"original_text": o, "suggested_text": s}` is such an item. */
  lemma TwoTextsLiteral(original: string, suggested: string)
    ensures TwoTexts(map["original_text" := Str(original), "suggested_text" := Str(suggested)], original, suggested)
  {
    assert |"original_text"| != |"suggested_text"|;
  }

  /** The result of each item, the `k`-th receiving the identifier `ids(k)`. */
  function ItemResults(items: seq<Json>, ids: nat -> string, skillsSection: string -> Option<string>, toFloat: string -> Option<real>): (rs: seq<ItemResult>)
    ensures |rs| == |items| && forall k :: 0 <= k < |items| ==> rs[k] == BatchItemAsWritten(items[k], ids(k), skillsSection, toFloat)
  {
    seq(|items|, k requires 0 <= k < |items| => BatchItemAsWritten(items[k], ids(k), skillsSection, toFloat))
  }

  /** The loop over the item results: `None` as soon as one fails. */
  function Collect(rs: seq<ItemResult>): Option<seq<Suggestion>> {
    if rs == [] then Some([])
    else
      match Collect(rs[..|rs| - 1])
      case None => None
      case Some(prev) =>
        match rs[|rs| - 1]
        case Fails => None
        case Dropped => Some(prev)
        case Made(s) => Some(prev + [s])
  }

  /**
   * The loop fails exactly when some item fails; otherwise it keeps, in
   * order, exactly the suggestions the items made.
   */
  lemma {:induction false} CollectSpec(rs: seq<ItemResult>)
    ensures Collect(rs).None? <==> exists k :: 0 <= k < |rs| && rs[k].Fails?
    ensures Collect(rs).Some? ==>
              && |Collect(rs).value| <= |rs|
              && (forall s :: s in Collect(rs).value <==> Made(s) in rs)
  {
    if rs != [] {
      var init := rs[..|rs| - 1];
      CollectSpec(init);
      assert forall k :: 0 <= k < |init| ==> init[k] == rs[k];
      assert rs == init + [rs[|rs| - 1]];
      if Collect(init).None? {
        var k :| 0 <= k < |init| && init[k].Fails?;
        assert rs[k].Fails?;
      }
    }
  }

  /** The batch keeps a reply item whose two texts agree up to the cap, storing the same text twice. */
  lemma NoOpSuggestionKept(fields: map<string, Json>, original: string, suggested: string, ids: nat -> string,
                           skillsSection: string -> Option<string>, toFloat: string -> Option<real>)
    requires TwoTexts(fields, original, suggested)
    requires Trimmed(original) && Trimmed(suggested) && original != suggested
    requires |original| == 201 && |suggested| == 201 && original[..200] == suggested[..200]
    ensures var r := BatchOf([Obj(fields)], ids, skillsSection, toFloat);
            |r| == 1 && r[0].originalText == r[0].suggestedText
  {
    IdenticalAfterCap(fields, original, suggested, ids(0), skillsSection, toFloat);
    var rs := ItemResults([Obj(fields)], ids, skillsSection, toFloat);
    assert |rs| == 1 && rs[0].Made?;
    assert rs[..|rs| - 1] == [];
    assert Collect(rs) == Some([] + [rs[0].s]);
  }

  /** Once an item fails, the whole loop fails. */
  lemma {:induction false} CollectFailsAt(rs: seq<ItemResult>, n: nat)
    requires n < |rs| && rs[n].Fails?
    ensures Collect(rs).None?
  {
    CollectSpec(rs);
  }

  /** One more item that does not fail extends the kept suggestions by what it made. */
  lemma CollectStep(rs: seq<ItemResult>, i: nat, kept: seq<Suggestion>)
    requires i < |rs| && Collect(rs[..i]) == Some(kept) && !rs[i].Fails?
    ensures Collect(rs[..i + 1]) == Some(if rs[i].Made? then kept + [rs[i].s] else kept)
  {
    assert rs[..i + 1][..i] == rs[..i];
  }

  /** The reply as the batch generator cleans it: trimmed, one opening fence and a closing fence dropped, trimmed again. */
  function CleanBatchReply(text: string): string {
    var t := Strip(text);
    var t1 := if StartsWith(t, "```json") then t[7..] else if StartsWith(t, "```") then t[3..] else t;
    Strip(if EndsWith(t1, "```") then t1[..|t1| - 3] else t1)
  }

  /** The prefixes by which the reply is recognised as an error message. */
  predicate ErrorPrefixed(t: string) {
    StartsWith(t, "Error:") || StartsWith(t, "Internal") || StartsWith(t, "Failed")
    || StartsWith(t, "Exception") || StartsWith(t, "API")
  }

  /** The suggestion items of the reply; every failure before the items (an empty, error or undecodable reply, no list) gives none. */
  function BatchReplyItems(reply: Option<string>, decode: string -> Option<Json>): seq<Json> {
    if !Truthy(reply) then []
    else
      var t := Strip(reply.value);
      if ErrorPrefixed(t) then []
      else
        var cleaned := CleanBatchReply(reply.value);
        var decoded: Option<Json> := match decode(cleaned)
          case Some(v) => Some(v)
          case None => if BraceSpan(cleaned).Some? then decode(BraceSpan(cleaned).value) else None;
        match decoded
        case Some(Obj(fields)) =>
          if "suggestions" in fields && fields["suggestions"].Arr? then fields["suggestions"].items else []
        case _ => []
  }

  /** The item loop over `items`; a failing item leaves no suggestions. */
  function BatchOf(items: seq<Json>, ids: nat -> string, skillsSection: string -> Option<string>, toFloat: string -> Option<real>): seq<Suggestion> {
    match Collect(ItemResults(items, ids, skillsSection, toFloat))
    case None => []
    case Some(ss) => ss
  }

  /** `_generate_batch_suggestions` after the model call. */
  function Batch(reply: Option<string>, decode: string -> Option<Json>, ids: nat -> string,
                 skillsSection: string -> Option<string>, toFloat: string -> Option<real>): seq<Suggestion>
  {
    BatchOf(BatchReplyItems(reply, decode), ids, skillsSection, toFloat)
  }

  /**
   * Every batch suggestion has two non-empty texts within its section's cap
   * and was made from a reply item; an item that fails makes the whole batch
   * empty.  The two stored texts may be equal (see `IdenticalAfterCap`).
   */
  lemma BatchSpec(items: seq<Json>, ids: nat -> string, skillsSection: string -> Option<string>, toFloat: string -> Option<real>)
    ensures var r := BatchOf(items, ids, skillsSection, toFloat);
            && |r| <= |items|
            && (forall s :: s in r ==>
                  (&& 0 < |s.originalText| <= MaxLength(s.sectionType)
                   && 0 < |s.suggestedText| <= MaxLength(s.sectionType)
                   && exists k :: 0 <= k < |items| && BatchItemAsWritten(items[k], ids(k), skillsSection, toFloat) == Made(s)))
            && ((exists k :: 0 <= k < |items| && BatchItemAsWritten(items[k], ids(k), skillsSection, toFloat).Fails?) ==> r == [])
  {
    var rs := ItemResults(items, ids, skillsSection, toFloat);
    CollectSpec(rs);
    if Collect(rs).Some? {
      forall s | s in Collect(rs).value
        ensures exists k :: 0 <= k < |items| && BatchItemAsWritten(items[k], ids(k), skillsSection, toFloat) == Made(s)
      {
        var k :| 0 <= k < |rs| && rs[k] == Made(s);
      }
    }
  }

  /** The item loop: stops with no suggestions at the first item that fails. */
  method FilterBatch(items: seq<Json>, ids: nat -> string, skillsSection: string -> Option<string>, toFloat: string -> Option<real>)
    returns (suggestions: seq<Suggestion>)
    ensures Collect(ItemResults(items, ids, skillsSection, toFloat)).Some? ==> suggestions == Collect(ItemResults(items, ids, skillsSection, toFloat)).value
    ensures Collect(ItemResults(items, ids, skillsSection, toFloat)).None? ==> suggestions == []
  {
    ghost var rs := ItemResults(items, ids, skillsSection, toFloat);
    suggestions := [];
    for i := 0 to |items|
      invariant Collect(rs[..i]) == Some(suggestions)
    {
      var r := BatchItemAsWritten(items[i], ids(i), skillsSection, toFloat);
      assert r == rs[i];
      if r.Fails? {
        CollectFailsAt(rs, i);
        return [];
      }
      CollectStep(rs, i, suggestions);
      if r.Made? {
        suggestions := suggestions + [r.s];
      }
    }
    assert rs[..|items|] == rs;
  }

  // ---------------------------------------------------------------- ordering

  /** `sort(key=expected_score_delta, reverse=True)` as an ascending key. */
  function DeltaKey(s: Suggestion): Key {
    (0, -s.expectedScoreDelta)
  }

  /** `sort(key=expected_score_delta, reverse=True)` then `[:maxSuggestions]`. */
  function Ranked(all: seq<Suggestion>, maxSuggestions: int): seq<Suggestion> {
    SliceTo(SortBy(all, DeltaKey), maxSuggestions)
  }

  /** `generate_suggestions`: the batch, then the skill suggestions, by descending gain, the first `maxSuggestions`. */
  function Suggestions(reply: Option<string>, decode: string -> Option<Json>, resume: ResumeData, jd: JobDescription,
                       maxSuggestions: int, batchIds: nat -> string, skillIds: nat -> string,
                       skillsSection: string -> Option<string>, toFloat: string -> Option<real>): seq<Suggestion>
  {
    Ranked(Batch(reply, decode, batchIds, skillsSection, toFloat) + SkillAdditions(resume, jd, skillIds), maxSuggestions)
  }

  /**
   * The ranked list is ordered by descending gain, holds at most
   * `maxSuggestions` suggestions drawn from the candidates (all of them when
   * the cap reaches their number), and no candidate with a larger gain than a
   * returned one is left out.
   */
  lemma RankedSpec(all: seq<Suggestion>, maxSuggestions: int)
    ensures var r := Ranked(all, maxSuggestions);
            && (forall i, j :: 0 <= i < j < |r| ==> r[i].expectedScoreDelta >= r[j].expectedScoreDelta)
            && (maxSuggestions >= 0 ==> |r| <= maxSuggestions)
            && multiset(r) <= multiset(all)
            && (maxSuggestions >= |all| ==> multiset(r) == multiset(all))
            && (forall s, x :: s in r && x in all && x.expectedScoreDelta > s.expectedScoreDelta ==> x in r)
  {
    SortedSliceSpec(all, DeltaKey, maxSuggestions);
    var r := Ranked(all, maxSuggestions);
    forall i, j | 0 <= i < j < |r| ensures r[i].expectedScoreDelta >= r[j].expectedScoreDelta {
      assert KeyLe(DeltaKey(r[i]), DeltaKey(r[j]));
    }
    forall s, x | s in r && x in all && x.expectedScoreDelta > s.expectedScoreDelta ensures x in r {
      assert KeyLess(DeltaKey(x), DeltaKey(s));
    }
  }

  /** The final list is the batch and the skill suggestions, ranked. */
  lemma SuggestionsSpec(reply: Option<string>, decode: string -> Option<Json>, resume: ResumeData, jd: JobDescription,
                        maxSuggestions: int, batchIds: nat -> string, skillIds: nat -> string,
                        skillsSection: string -> Option<string>, toFloat: string -> Option<real>)
    ensures var all := Batch(reply, decode, batchIds, skillsSection, toFloat) + SkillAdditions(resume, jd, skillIds);
            var r := Suggestions(reply, decode, resume, jd, maxSuggestions, batchIds, skillIds, skillsSection, toFloat);
            && (forall i, j :: 0 <= i < j < |r| ==> r[i].expectedScoreDelta >= r[j].expectedScoreDelta)
            && (maxSuggestions >= 0 ==> |r| <= maxSuggestions)
            && multiset(r) <= multiset(all)
            && (maxSuggestions >= |all| ==> multiset(r) == multiset(all))
            && (forall s, x :: s in r && x in all && x.expectedScoreDelta > s.expectedScoreDelta ==> x in r)
  {
    RankedSpec(Batch(reply, decode, batchIds, skillsSection, toFloat) + SkillAdditions(resume, jd, skillIds), maxSuggestions);
  }

  /** `generate_suggestions` once the reply is in hand: extend the batch with the skill suggestions, sort, truncate. */
  method GenerateSuggestions(reply: Option<string>, decode: string -> Option<Json>, resume: ResumeData, jd: JobDescription,
                             maxSuggestions: int, batchIds: nat -> string, skillIds: nat -> string,
                             skillsSection: string -> Option<string>, toFloat: string -> Option<real>)
    returns (suggestions: seq<Suggestion>)
    ensures suggestions == Suggestions(reply, decode, resume, jd, maxSuggestions, batchIds, skillIds, skillsSection, toFloat)
  {
    var items := BatchReplyItems(reply, decode);
    var allSuggestions := FilterBatch(items, batchIds, skillsSection, toFloat);
    var skillSuggestions := SuggestSkillAdditions(resume, jd, skillIds);
    allSuggestions := allSuggestions + skillSuggestions;
    allSuggestions := SortBy(allSuggestions, DeltaKey);
    suggestions := SliceTo(allSuggestions, maxSuggestions);
  }

  // ---------------------------------------------------------------- the job-description digest

  /** A titled bullet list of at most `cap` items, present only when the list is non-empty. */
  function Listed(title: string, items: seq<string>, cap: nat): seq<string> {
    if items == [] then [] else [title, Join(Bullets(Take(items, cap)), "\n")]
  }

  /** A comma-joined list of at most `cap` items after a label, present only when the list is non-empty. */
  function Inline(title: string, items: seq<string>, cap: nat): seq<string> {
    if items == [] then [] else [title + Join(Take(items, cap), ", ")]
  }

  /** The parts of `_create_jd_summary`, joined with newlines. */
  function JdSummaryParts(jd: JobDescription): seq<string> {
    ["ROLE: " + jd.roleTitle]
    + (if Truthy(jd.company) then ["COMPANY: " + jd.company.value] else [])
    + Listed("\nKEY RESPONSIBILITIES:", jd.responsibilities, 8)
    + Listed("\nREQUIREMENTS:", jd.requirements, 8)
    + Listed("\nPREFERRED QUALIFICATIONS:", jd.preferredQualifications, 5)
    + Inline("\nREQUIRED SKILLS: ", jd.requiredSkills, 15)
    + Inline("PREFERRED SKILLS: ", jd.preferredSkills, 10)
    + Inline("\nKEYWORDS: ", jd.keywords, 20)
  }

  function JdSummary(jd: JobDescription): string {
    Join(JdSummaryParts(jd), "\n")
  }

  /** A listed item within the cap appears in the digest as a bullet line. */
  lemma ListedShows(title: string, items: seq<string>, cap: nat, k: nat, parts: seq<string>)
    requires k < |items| && k < cap
    requires forall p :: p in Listed(title, items, cap) ==> p in parts
    ensures Contains(Join(parts, "\n"), "  • " + items[k])
  {
    var lines := Bullets(Take(items, cap));
    assert lines[k] == "  • " + items[k];
    JoinContainsPart(lines, "\n", lines[k]);
    var block := Join(lines, "\n");
    assert block in Listed(title, items, cap);
    JoinContainsPart(parts, "\n", block);
    ContainsTrans(Join(parts, "\n"), block, lines[k]);
  }

  /** The digest opens with the role line. */
  lemma JdSummaryRole(jd: JobDescription)
    ensures StartsWith(JdSummary(jd), "ROLE: " + jd.roleTitle)
  {
    var parts := JdSummaryParts(jd);
    assert parts[0] == "ROLE: " + jd.roleTitle;
    if |parts| > 1 {
      assert Join(parts, "\n") == parts[0] + ("\n" + Join(parts[1..], "\n"));
    }
  }

  /** The first eight responsibilities and requirements and the first five preferred qualifications appear as bullet lines. */
  lemma JdSummaryBullets(jd: JobDescription, k: nat)
    ensures k < |jd.responsibilities| && k < 8 ==> Contains(JdSummary(jd), "  • " + jd.responsibilities[k])
    ensures k < |jd.requirements| && k < 8 ==> Contains(JdSummary(jd), "  • " + jd.requirements[k])
    ensures k < |jd.preferredQualifications| && k < 5 ==> Contains(JdSummary(jd), "  • " + jd.preferredQualifications[k])
  {
    var parts := JdSummaryParts(jd);
    if k < |jd.responsibilities| && k < 8 {
      ListedShows("\nKEY RESPONSIBILITIES:", jd.responsibilities, 8, k, parts);
    }
    if k < |jd.requirements| && k < 8 {
      ListedShows("\nREQUIREMENTS:", jd.requirements, 8, k, parts);
    }
    if k < |jd.preferredQualifications| && k < 5 {
      ListedShows("\nPREFERRED QUALIFICATIONS:", jd.preferredQualifications, 5, k, parts);
    }
  }

  /** A non-empty required-skills list shows its first fifteen entries, comma-separated. */
  lemma JdSummaryRequiredSkills(jd: JobDescription)
    requires jd.requiredSkills != []
    ensures Contains(JdSummary(jd), "REQUIRED SKILLS: " + Join(Take(jd.requiredSkills, 15), ", "))
  {
    var parts := JdSummaryParts(jd);
    var shown := "REQUIRED SKILLS: " + Join(Take(jd.requiredSkills, 15), ", ");
    var line := "\nREQUIRED SKILLS: " + Join(Take(jd.requiredSkills, 15), ", ");
    assert "\nREQUIRED SKILLS: " == "\n" + "REQUIRED SKILLS: ";
    assert line == "\n" + shown;
    assert Inline("\nREQUIRED SKILLS: ", jd.requiredSkills, 15) == [line];
    assert line in parts;
    JoinContainsPart(parts, "\n", line);
    assert line[1..1 + |shown|] == shown;
    ContainsAt(line, shown, 1);
    ContainsTrans(Join(parts, "\n"), line, shown);
  }

  /** With no company and all lists empty the digest is the role line alone. */
  lemma JdSummaryMinimal(jd: JobDescription)
    requires !Truthy(jd.company) && jd.responsibilities == [] && jd.requirements == []
    requires jd.preferredQualifications == [] && jd.requiredSkills == [] && jd.preferredSkills == [] && jd.keywords == []
    ensures JdSummary(jd) == "ROLE: " + jd.roleTitle
  {
    assert JdSummaryParts(jd) == ["ROLE: " + jd.roleTitle];
  }

  // ---------------------------------------------------------------- the fit summary

  /** The fit summary: its summary value and four lists, each a value taken from the reply or a fallback. */
  datatype FitSummary = FitSummary(summary: Json, topStrengths: Json, keyGaps: Json, overlaps: Json, recommendations: Json)

  /** `v[:5]` for a list or a string; any other value raises. */
  function FirstFive(v: Json): (r: Option<Json>)
    ensures r.Some? ==> (v.Arr? && r.value == Arr(Take(v.items, 5))) || (v.Str? && r.value == Str(Take(v.s, 5)))
  {
    match v
    case Arr(items) => Some(Arr(Take(items, 5)))
    case Str(s) => Some(Str(Take(s, 5)))
    case _ => None
  }

  /** The number of elements of a list or characters of a string. */
  function Size(v: Json): nat {
    match v
    case Arr(items) => |items|
    case Str(s) => |s|
    case _ => 0
  }

  /** The fallback summary line; `atsText` is `str(ats_score)`. */
  function FallbackLine(semanticFit: string, roleTitle: string, atsText: string): string {
    "Your resume shows a " + Lower(semanticFit) + " fit for this " + roleTitle + " role. ATS score: " + atsText + "/100."
  }

  /** Every list of the result holds at most five entries. */
  predicate Capped(r: FitSummary) {
    Size(r.topStrengths) <= 5 && Size(r.keyGaps) <= 5 && Size(r.overlaps) <= 5 && Size(r.recommendations) <= 5
  }

  /** The fixed result after a decoding error (`decodeFailed`) or any other failure. */
  function FitFallback(semanticFit: string, roleTitle: string, atsText: string, decodeFailed: bool): (r: FitSummary)
    ensures Capped(r)
  {
    var advice := Arr([Str("Use the suggestions feature to get specific improvements")]);
    var line := Str(FallbackLine(semanticFit, roleTitle, atsText));
    if decodeFailed then
      FitSummary(line, Arr([Str("Review the job description to identify matching experience")]),
                 Arr([Str("Compare your skills with required skills in the JD")]), Arr([]), advice)
    else
      FitSummary(line, Arr([]), Arr([]), Arr([]), advice)
  }

  /** The result built from a decoded object, or `fallback` when one of its lists cannot be sliced. */
  function FitFromObject(fields: map<string, Json>, defaultSummary: string, fallback: FitSummary): (r: FitSummary)
    requires Capped(fallback)
    ensures Capped(r)
  {
    var strengths := FirstFive(Get(fields, "strengths", Arr([])));
    var gaps := FirstFive(Get(fields, "gaps", Arr([])));
    var overlaps := FirstFive(Get(fields, "overlaps", Arr([])));
    var recommendations := FirstFive(Get(fields, "recommendations", Arr([])));
    if strengths.Some? && gaps.Some? && overlaps.Some? && recommendations.Some? then
      FitSummary(Get(fields, "summary", Str(defaultSummary)), strengths.value, gaps.value, overlaps.value, recommendations.value)
    else fallback
  }

  /** `generate_fit_summary` after the model call. */
  function FitSummaryOf(reply: Option<string>, decode: string -> Option<Json>, semanticFit: string, roleTitle: string,
                        atsText: string): (r: FitSummary)
    ensures Capped(r)
  {
    if !Truthy(reply) then FitFallback(semanticFit, roleTitle, atsText, false)
    else
      match decode(StripFences(reply.value))
      case None => FitFallback(semanticFit, roleTitle, atsText, true)
      case Some(v) =>
        if !v.Obj? then FitFallback(semanticFit, roleTitle, atsText, false)
        else
          FitFromObject(v.fields, "Your resume shows a " + Lower(semanticFit) + " fit for this " + roleTitle + " role.",
                        FitFallback(semanticFit, roleTitle, atsText, false))
  }

  /** The entry `key` is present and is a list. */
  predicate ListField(fields: map<string, Json>, key: string) {
    key in fields && fields[key].Arr?
  }

  /** An object whose four entries are lists gives the first five of each and its own summary. */
  lemma FitFromLists(fields: map<string, Json>, defaultSummary: string, fallback: FitSummary)
    requires Capped(fallback)
    requires ListField(fields, "strengths") && ListField(fields, "gaps")
    requires ListField(fields, "overlaps") && ListField(fields, "recommendations")
    ensures var r := FitFromObject(fields, defaultSummary, fallback);
            && r.summary == Get(fields, "summary", Str(defaultSummary))
            && r.topStrengths == Arr(Take(fields["strengths"].items, 5))
            && r.keyGaps == Arr(Take(fields["gaps"].items, 5))
            && r.overlaps == Arr(Take(fields["overlaps"].items, 5))
            && r.recommendations == Arr(Take(fields["recommendations"].items, 5))
  {
  }

  /**
   * A missing or empty reply gives the general fallback, an undecodable one
   * the decoding fallback; a decoded object whose four entries are lists
   * gives the first five of each and its own summary.
   */
  lemma FitSummarySpec(reply: Option<string>, decode: string -> Option<Json>, semanticFit: string, roleTitle: string,
                       atsText: string)
    ensures !Truthy(reply) ==> FitSummaryOf(reply, decode, semanticFit, roleTitle, atsText) == FitFallback(semanticFit, roleTitle, atsText, false)
    ensures Truthy(reply) && decode(StripFences(reply.value)).None? ==>
              FitSummaryOf(reply, decode, semanticFit, roleTitle, atsText) == FitFallback(semanticFit, roleTitle, atsText, true)
    ensures Truthy(reply) && decode(StripFences(reply.value)).Some? && decode(StripFences(reply.value)).value.Obj? ==>
              var fields := decode(StripFences(reply.value)).value.fields;
              var r := FitSummaryOf(reply, decode, semanticFit, roleTitle, atsText);
              (ListField(fields, "strengths") && ListField(fields, "gaps") && ListField(fields, "overlaps")
               && ListField(fields, "recommendations")) ==>
                && ("summary" in fields ==> r.summary == fields["summary"])
                && r.topStrengths == Arr(Take(fields["strengths"].items, 5))
                && r.keyGaps == Arr(Take(fields["gaps"].items, 5))
                && r.overlaps == Arr(Take(fields["overlaps"].items, 5))
                && r.recommendations == Arr(Take(fields["recommendations"].items, 5))
  {
    if Truthy(reply) && decode(StripFences(reply.value)).Some? && decode(StripFences(reply.value)).value.Obj? {
      var fields := decode(StripFences(reply.value)).value.fields;
      if ListField(fields, "strengths") && ListField(fields, "gaps") && ListField(fields, "overlaps")
         && ListField(fields, "recommendations") {
        FitFromLists(fields, "Your resume shows a " + Lower(semanticFit) + " fit for this " + roleTitle + " role.",
                     FitFallback(semanticFit, roleTitle, atsText, false));
      }
    }
  }
}
