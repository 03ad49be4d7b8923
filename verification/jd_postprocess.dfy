/**
 * What the JD endpoint does to a parsed job description before storing it:
 * keep the full source as raw text when the parser's copy is missing or
 * short, make sure there is a role title, and — when the parser found
 * almost nothing — an aggressive fallback that pulls bullets and common
 * skills straight out of the raw text.
 *
 * The bullet and skill regular expressions are parameters: `bulletMatches`
 * gives, for a text, the captured bullet strings of the three bullet
 * patterns in order, and `skillMatches` the matches of the five skill
 * patterns, each with the fixed name its pattern assigns (if any).
 */
module JdPostprocess {
  import opened Wrappers
  import opened Text
  import opened Collections
  import opened Schemas
  import opened NearDuplicates

  // ---------------------------------------------------------------- raw text and title

  /** The parser's raw text is replaced by the source when it is missing, empty or shorter than 80% of the source. */
  function RawTextAfter(raw: Option<string>, source: string): (r: Option<string>)
    ensures r.Some? && (r == raw || r == Some(source))
    ensures 5 * |r.value| >= 4 * |source|
    ensures Truthy(raw) && 5 * |raw.value| >= 4 * |source| ==> r == raw
  {
    if !Truthy(raw) || 5 * |raw.value| < 4 * |source| then Some(source) else raw
  }

  /** The first line of the raw text, trimmed. */
  function FirstLine(raw: string): string {
    Strip(Split(raw, '\n')[0])
  }

  /**
   * A missing or placeholder title ("Job Position") becomes the first line
   * of the raw text when that line is non-empty and shorter than 100
   * characters, and "Job Description" otherwise.
   */
  function TitleAfter(title: string, raw: Option<string>): (t: string)
    ensures t != ""
    ensures title != "" && title != "Job Position" ==> t == title
    ensures t != title ==> t == "Job Description" || (raw.Some? && t == FirstLine(raw.value) && |t| < 100)
  {
    if title == "" || title == "Job Position" then
      if Truthy(raw) then
        var first := FirstLine(raw.value);
        if first != "" && |first| < 100 then first else "Job Description"
      else "Job Description"
    else title
  }

  // ---------------------------------------------------------------- aggressive fallback

  const ResponsibilityVerbs: seq<string> := [
    "lead", "develop", "manage", "create", "design", "build", "drive",
    "collaborate", "work", "implement", "deliver", "own", "execute"]

  const RequirementCues: seq<string> := [
    "experience", "years", "degree", "bachelor", "master", "skill",
    "knowledge", "ability", "proven", "demonstrated", "required", "must"]

  /** The fallback runs only when responsibilities, requirements and required skills each have fewer than two items. */
  predicate FallbackNeeded(jd: JobDescription) {
    |jd.responsibilities| < 2 && |jd.requirements| < 2 && |jd.requiredSkills| < 2
  }

  /** `[b.strip() for b in found if len(b.strip()) > 20]` */
  function StrippedLong(found: seq<string>): (r: seq<string>)
    ensures forall k :: 0 <= k < |r| ==> |r[k]| > 20
  {
    if found == [] then []
    else
      var prev := StrippedLong(found[..|found| - 1]);
      var b := Strip(found[|found| - 1]);
      if |b| > 20 then prev + [b] else prev
  }

  /** The candidate bullets: stripped, longer than 20 characters, exact duplicates removed in first-seen order. */
  function CandidateBullets(found: seq<string>): seq<string> {
    Dedup(StrippedLong(found))
  }

  /** Which list a bullet goes to: true for responsibilities, false for requirements, `None` for neither. */
  function Category(bullet: string): Option<bool> {
    var low := Lower(bullet);
    if MentionsAny(low, ResponsibilityVerbs) then Some(true)
    else if MentionsAny(low, RequirementCues) then Some(false)
    else if |bullet| > 30 then Some(false)
    else None
  }

  /** The categorising loop over `bullets`, appending each to its list when not already there. */
  function Categorize(resp: seq<string>, reqs: seq<string>, bullets: seq<string>): (seq<string>, seq<string>) {
    if bullets == [] then (resp, reqs)
    else
      var prev := Categorize(resp, reqs, bullets[..|bullets| - 1]);
      var b := bullets[|bullets| - 1];
      match Category(b)
      case Some(true) => (if b in prev.0 then prev.0 else prev.0 + [b], prev.1)
      case Some(false) => (prev.0, if b in prev.1 then prev.1 else prev.1 + [b])
      case None => prev
  }

  /** Categorising only appends, at most one item per bullet. */
  lemma {:induction false} CategorizeGrows(resp: seq<string>, reqs: seq<string>, bullets: seq<string>)
    ensures resp <= Categorize(resp, reqs, bullets).0 && reqs <= Categorize(resp, reqs, bullets).1
    ensures |Categorize(resp, reqs, bullets).0| + |Categorize(resp, reqs, bullets).1| <= |resp| + |reqs| + |bullets|
  {
    if bullets != [] {
      CategorizeGrows(resp, reqs, bullets[..|bullets| - 1]);
    }
  }

  /** A new responsibility is a bullet that mentions an action verb; a new requirement is a bullet. */
  lemma {:induction false} CategorizeFrom(resp: seq<string>, reqs: seq<string>, bullets: seq<string>)
    ensures forall x :: x in Categorize(resp, reqs, bullets).0 ==>
              x in resp || (x in bullets && MentionsAny(Lower(x), ResponsibilityVerbs))
    ensures forall x :: x in Categorize(resp, reqs, bullets).1 ==> x in reqs || x in bullets
  {
    if bullets != [] {
      var init := bullets[..|bullets| - 1];
      CategorizeFrom(resp, reqs, init);
      assert bullets == init + [bullets[|bullets| - 1]];
    }
  }

  /** Every bullet longer than 30 characters ends up in one of the two lists. */
  lemma {:induction false} CategorizeCovers(resp: seq<string>, reqs: seq<string>, bullets: seq<string>)
    ensures forall b :: b in bullets && |b| > 30 ==>
              b in Categorize(resp, reqs, bullets).0 || b in Categorize(resp, reqs, bullets).1
  {
    if bullets != [] {
      var init := bullets[..|bullets| - 1];
      CategorizeCovers(resp, reqs, init);
      CategorizeGrows(resp, reqs, init);
      assert bullets == init + [bullets[|bullets| - 1]];
      var prev := Categorize(resp, reqs, init);
      var next := Categorize(resp, reqs, bullets);
      assert prev.0 <= next.0 && prev.1 <= next.1;
    }
  }

  /** A list without duplicates stays without duplicates. */
  lemma {:induction false} CategorizeDistinct(resp: seq<string>, reqs: seq<string>, bullets: seq<string>)
    ensures NoDuplicates(resp) ==> NoDuplicates(Categorize(resp, reqs, bullets).0)
    ensures NoDuplicates(reqs) ==> NoDuplicates(Categorize(resp, reqs, bullets).1)
  {
    if bullets != [] {
      CategorizeDistinct(resp, reqs, bullets[..|bullets| - 1]);
      var prev := Categorize(resp, reqs, bullets[..|bullets| - 1]);
      var b := bullets[|bullets| - 1];
      if NoDuplicates(resp) && b !in prev.0 { NoDuplicatesAppend(prev.0, b); }
      if NoDuplicates(reqs) && b !in prev.1 { NoDuplicatesAppend(prev.1, b); }
    }
  }

  /** A skill match: the matched text and the fixed name its pattern assigns, if any. */
  datatype SkillMatch = SkillMatch(text: string, fixedName: Option<string>)

  predicate IsAsciiLetter(c: char) {
    'a' <= c <= 'z' || 'A' <= c <= 'Z'
  }

  /** `str.islower()` over ASCII: some letter, and no upper-case letter. */
  predicate IsLowerText(s: string) {
    (exists i :: 0 <= i < |s| && IsAsciiLetter(s[i])) && forall i :: 0 <= i < |s| ==> !('A' <= s[i] <= 'Z')
  }

  /** `str.title()` over ASCII: a letter after a letter is lower-cased, any other letter upper-cased. */
  function TitleCase(s: string): (r: string)
    ensures |r| == |s|
  {
    if s == [] then []
    else
      var prev := TitleCase(s[..|s| - 1]);
      var c := s[|s| - 1];
      var afterLetter := |s| >= 2 && IsAsciiLetter(s[|s| - 2]);
      prev + [if afterLetter then LowerChar(c) else UpperChar(c)]
  }

  /** The name recorded for a skill match. */
  function SkillName(m: SkillMatch): string {
    if m.fixedName.Some? then m.fixedName.value
    else
      var low := Lower(m.text);
      if low == "ai" || Contains(low, "artificial intelligence") then "AI"
      else if low == "ml" || Contains(low, "machine learning") then "Machine Learning"
      else if IsLowerText(m.text) then TitleCase(m.text)
      else m.text
  }

  function SkillNames(ms: seq<SkillMatch>): (r: seq<string>)
    ensures |r| == |ms| && forall k :: 0 <= k < |ms| ==> r[k] == SkillName(ms[k])
  {
    seq(|ms|, k requires 0 <= k < |ms| => SkillName(ms[k]))
  }

  /** The required skills after the fallback skill scan (run only when there are fewer than three). */
  function FallbackSkills(required: seq<string>, ms: seq<SkillMatch>): seq<string> {
    if |required| < 3 then AppendAbsent(required, AppendAbsent([], SkillNames(ms))) else required
  }

  /** The aggressive fallback on a JD whose raw text is `raw`. */
  function Fallback(jd: JobDescription, raw: string, bulletMatches: string -> seq<string>,
                    skillMatches: string -> seq<SkillMatch>): JobDescription
  {
    var unique := Kept(CandidateBullets(bulletMatches(raw)));
    var (resp, reqs) := Categorize(jd.responsibilities, jd.requirements, Take(unique, 20));
    jd.(responsibilities := resp, requirements := reqs,
        requiredSkills := FallbackSkills(jd.requiredSkills, skillMatches(raw)))
  }

  /** The whole post-processing: raw text, then title, then the fallback when little was extracted. */
  function PostprocessOf(jd: JobDescription, source: string, bulletMatches: string -> seq<string>,
                       skillMatches: string -> seq<SkillMatch>): JobDescription
  {
    var raw := RawTextAfter(jd.rawText, source);
    var jd1 := jd.(rawText := raw, roleTitle := TitleAfter(jd.roleTitle, raw));
    if FallbackNeeded(jd1) then Fallback(jd1, raw.value, bulletMatches, skillMatches) else jd1
  }

  /**
   * After post-processing the raw text is at least 80% of the source, the
   * title is never empty, no existing responsibility, requirement or skill
   * is lost or reordered, and the fallback adds at most 20 bullets, each
   * normalising to more than 30 characters, and only when all three lists
   * had fewer than two items.
   */
  lemma PostprocessSpec(jd: JobDescription, source: string, bulletMatches: string -> seq<string>,
                        skillMatches: string -> seq<SkillMatch>)
    ensures var jd' := PostprocessOf(jd, source, bulletMatches, skillMatches);
            && jd'.rawText.Some? && 5 * |jd'.rawText.value| >= 4 * |source|
            && jd'.roleTitle != ""
            && jd.responsibilities <= jd'.responsibilities && jd.requirements <= jd'.requirements
            && jd.requiredSkills <= jd'.requiredSkills
            && |jd'.responsibilities| + |jd'.requirements| <= |jd.responsibilities| + |jd.requirements| + 20
            && (forall x :: x in jd'.responsibilities + jd'.requirements ==>
                  x in jd.responsibilities + jd.requirements || |Normalize(x)| > 30)
            && (!FallbackNeeded(jd) ==>
                  (jd'.responsibilities, jd'.requirements, jd'.requiredSkills)
                  == (jd.responsibilities, jd.requirements, jd.requiredSkills))
  {
    var raw := RawTextAfter(jd.rawText, source);
    var jd1 := jd.(rawText := raw, roleTitle := TitleAfter(jd.roleTitle, raw));
    if FallbackNeeded(jd1) {
      var unique := Kept(CandidateBullets(bulletMatches(raw.value)));
      var firsts := Take(unique, 20);
      CategorizeGrows(jd.responsibilities, jd.requirements, firsts);
      CategorizeFrom(jd.responsibilities, jd.requirements, firsts);
      KeptSpec(CandidateBullets(bulletMatches(raw.value)));
      AppendAbsentSpec(jd.requiredSkills, AppendAbsent([], SkillNames(skillMatches(raw.value))));
      assert forall x :: x in firsts ==> x in unique;
    }
  }

  // ---------------------------------------------------------------- the JD record, updated in place

  class JdRecord {
    const base: JobDescription
    var roleTitle: string
    var responsibilities: seq<string>
    var requirements: seq<string>
    var requiredSkills: seq<string>
    var rawText: Option<string>

    function Data(): JobDescription
      reads this
    {
      base.(roleTitle := roleTitle, responsibilities := responsibilities, requirements := requirements,
            requiredSkills := requiredSkills, rawText := rawText)
    }

    constructor (jd: JobDescription)
      ensures Data() == jd
    {
      base := jd;
      roleTitle := jd.roleTitle;
      responsibilities := jd.responsibilities;
      requirements := jd.requirements;
      requiredSkills := jd.requiredSkills;
      rawText := jd.rawText;
    }

    /** The categorising loop over the first 20 unique bullets. */
    method CategorizeBullets(bullets: seq<string>)
      modifies this
      ensures (responsibilities, requirements) == Categorize(old(responsibilities), old(requirements), bullets)
      ensures roleTitle == old(roleTitle) && requiredSkills == old(requiredSkills) && rawText == old(rawText)
    {
      var k := 0;
      while k < |bullets|
        invariant 0 <= k <= |bullets|
        invariant (responsibilities, requirements) == Categorize(old(responsibilities), old(requirements), bullets[..k])
        invariant roleTitle == old(roleTitle) && requiredSkills == old(requiredSkills) && rawText == old(rawText)
      {
        assert bullets[..k + 1][..k] == bullets[..k];
        var bullet := bullets[k];
        var low := Lower(bullet);
        var isVerb := MentionsAnyLoop(low, ResponsibilityVerbs);
        if isVerb {
          if bullet !in responsibilities {
            responsibilities := responsibilities + [bullet];
          }
        } else {
          var isReq := MentionsAnyLoop(low, RequirementCues);
          if isReq || |bullet| > 30 {
            if bullet !in requirements {
              requirements := requirements + [bullet];
            }
          }
        }
        k := k + 1;
      }
      assert bullets[..k] == bullets;
    }

    /** The fallback skill scan: collect the distinct names, then append the ones not yet required. */
    method AddFallbackSkills(ms: seq<SkillMatch>)
      modifies this
      ensures requiredSkills == FallbackSkills(old(requiredSkills), ms)
      ensures roleTitle == old(roleTitle) && responsibilities == old(responsibilities)
      ensures requirements == old(requirements) && rawText == old(rawText)
    {
      if |requiredSkills| >= 3 {
        return;
      }
      var names := SkillNames(ms);
      var found: seq<string> := [];
      var k := 0;
      while k < |names|
        invariant 0 <= k <= |names| && found == AppendAbsent([], names[..k])
      {
        assert names[..k + 1][..k] == names[..k];
        if names[k] !in found {
          found := found + [names[k]];
        }
        k := k + 1;
      }
      assert names[..k] == names;
      var start := requiredSkills;
      k := 0;
      while k < |found|
        invariant 0 <= k <= |found| && requiredSkills == AppendAbsent(start, found[..k])
        invariant roleTitle == old(roleTitle) && responsibilities == old(responsibilities)
        invariant requirements == old(requirements) && rawText == old(rawText)
      {
        assert found[..k + 1][..k] == found[..k];
        if found[k] !in requiredSkills {
          requiredSkills := requiredSkills + [found[k]];
        }
        k := k + 1;
      }
      assert found[..k] == found;
    }

    /** The raw-text and title repairs. */
    method FillRawAndTitle(source: string)
      modifies this
      ensures rawText == RawTextAfter(old(rawText), source)
      ensures roleTitle == TitleAfter(old(roleTitle), rawText)
      ensures responsibilities == old(responsibilities) && requirements == old(requirements)
      ensures requiredSkills == old(requiredSkills)
    {
      if !Truthy(rawText) || 5 * |rawText.value| < 4 * |source| {
        rawText := Some(source);
      }
      if roleTitle == "" || roleTitle == "Job Position" {
        if Truthy(rawText) {
          var first := Strip(Split(rawText.value, '\n')[0]);
          if first != "" && |first| < 100 {
            roleTitle := first;
          } else {
            roleTitle := "Job Description";
          }
        } else {
          roleTitle := "Job Description";
        }
      }
    }

    /** The aggressive fallback over the raw text. */
    method RunFallback(bulletMatches: string -> seq<string>, skillMatches: string -> seq<SkillMatch>)
      requires rawText.Some?
      modifies this
      ensures Data() == Fallback(old(Data()), old(rawText).value, bulletMatches, skillMatches)
    {
      var raw := rawText.value;
      var candidates := CandidateBulletsLoop(bulletMatches(raw));
      var unique := UniqueItems(candidates);
      CategorizeBullets(Take(unique, 20));
      AddFallbackSkills(skillMatches(raw));
    }

    /** The post-processing of the JD endpoint. */
    method Postprocess(source: string, bulletMatches: string -> seq<string>, skillMatches: string -> seq<SkillMatch>)
      modifies this
      ensures Data() == PostprocessOf(old(Data()), source, bulletMatches, skillMatches)
    {
      FillRawAndTitle(source);
      if |responsibilities| < 2 && |requirements| < 2 && |requiredSkills| < 2 {
        RunFallback(bulletMatches, skillMatches);
      }
    }
  }

  /** `any(w in text for w in words)`, word by word. */
  method MentionsAnyLoop(text: string, words: seq<string>) returns (found: bool)
    ensures found <==> MentionsAny(text, words)
  {
    var k := 0;
    while k < |words|
      invariant 0 <= k <= |words|
      invariant forall j :: 0 <= j < k ==> !Contains(text, words[j])
    {
      if Find(text, words[k]) >= 0 {
        return true;
      }
      k := k + 1;
    }
    return false;
  }

  /** The bullet-collecting loop followed by `dict.fromkeys` de-duplication. */
  method CandidateBulletsLoop(found: seq<string>) returns (bullets: seq<string>)
    ensures bullets == CandidateBullets(found)
  {
    var acc: seq<string> := [];
    var k := 0;
    while k < |found|
      invariant 0 <= k <= |found| && acc == StrippedLong(found[..k])
    {
      assert found[..k + 1][..k] == found[..k];
      var b := Strip(found[k]);
      if |b| > 20 {
        acc := acc + [b];
      }
      k := k + 1;
    }
    assert found[..k] == found;
    bullets := Dedup(acc);
  }
}
