/**
 * Semantic fit: the résumé and the job description are cut into named text
 * sections, every section is embedded, and each résumé section is scored by
 * its best similarity with any JD section.  The overall score is the mean of
 * those best similarities and is classified High / Medium / Low.
 *
 * The embedding service and cosine similarity are parameters: the model
 * receives the vectors and a real-valued similarity function.
 */
module SemanticMatcher {
  import opened Wrappers
  import opened Text
  import opened Collections
  import opened Schemas

  // ---------------------------------------------------------------- sections

  /** The text of experience entry `e`: "title at company. " then its bullets joined by spaces. */
  function ExperienceSection(e: ExperienceEntry): string {
    e.title + " at " + e.company + ". " + Join(BulletTexts(e.bullets), " ")
  }

  /** The text of education entry `ed`: "degree from institution", plus " in field" when there is one. */
  function EducationSection(ed: EducationEntry): string {
    ed.degree + " from " + ed.institution + (if Truthy(ed.field) then " in " + ed.field.value else "")
  }

  function ExperienceKey(i: nat): string { "experience_" + NatToString(i) }
  function EducationKey(i: nat): string { "education_" + NatToString(i) }

  function ExperienceSections(es: seq<ExperienceEntry>): seq<(string, string)> {
    seq(|es|, i requires 0 <= i < |es| => (ExperienceKey(i), ExperienceSection(es[i])))
  }

  function EducationSections(ed: seq<EducationEntry>): seq<(string, string)> {
    seq(|ed|, i requires 0 <= i < |ed| => (EducationKey(i), EducationSection(ed[i])))
  }

  /** The résumé's sections in dictionary insertion order. */
  function ResumeSections(r: ResumeData): seq<(string, string)> {
    (if Truthy(r.summary) then [("summary", r.summary.value)] else [])
    + ExperienceSections(r.experience)
    + (if r.skills != [] then [("skills", Join(r.skills, ", "))] else [])
    + EducationSections(r.education)
  }

  function Keys(sections: seq<(string, string)>): seq<string> {
    seq(|sections|, i requires 0 <= i < |sections| => sections[i].0)
  }

  /** `_extract_resume_sections`, filled entry by entry. */
  method ExtractResumeSections(r: ResumeData) returns (sections: seq<(string, string)>)
    ensures sections == ResumeSections(r)
  {
    sections := [];
    if Truthy(r.summary) {
      sections := [("summary", r.summary.value)];
    }
    var experience := ExperienceLoop(r.experience);
    sections := sections + experience;
    if r.skills != [] {
      sections := sections + [("skills", Join(r.skills, ", "))];
    }
    var education := EducationLoop(r.education);
    sections := sections + education;
  }

  /** The experience loop of `_extract_resume_sections`. */
  method ExperienceLoop(es: seq<ExperienceEntry>) returns (sections: seq<(string, string)>)
    ensures sections == ExperienceSections(es)
  {
    sections := [];
    var i := 0;
    while i < |es|
      invariant 0 <= i <= |es|
      invariant sections == ExperienceSections(es[..i])
    {
      var e := es[i];
      assert ExperienceSections(es[..i + 1]) == ExperienceSections(es[..i]) + [(ExperienceKey(i), ExperienceSection(e))];
      sections := sections + [(ExperienceKey(i), ExperienceSection(e))];
      i := i + 1;
    }
    assert es[..i] == es;
  }

  /** The education loop of `_extract_resume_sections`. */
  method EducationLoop(eds: seq<EducationEntry>) returns (sections: seq<(string, string)>)
    ensures sections == EducationSections(eds)
  {
    sections := [];
    var i := 0;
    while i < |eds|
      invariant 0 <= i <= |eds|
      invariant sections == EducationSections(eds[..i])
    {
      var ed := eds[i];
      var text := ed.degree + " from " + ed.institution;
      if Truthy(ed.field) {
        text := text + " in " + ed.field.value;
      }
      assert text == EducationSection(ed);
      assert EducationSections(eds[..i + 1]) == EducationSections(eds[..i]) + [(EducationKey(i), EducationSection(ed))];
      sections := sections + [(EducationKey(i), text)];
      i := i + 1;
    }
    assert eds[..i] == eds;
  }

  /** `str(i)` is injective, so the numbered keys never collide. */
  lemma NatToStringInjective(i: nat, j: nat)
    requires NatToString(i) == NatToString(j)
    ensures i == j
  {
    NatToStringValue(i);
    NatToStringValue(j);
  }

  lemma PrefixedKeyInjective(p: string, i: nat, j: nat)
    requires p + NatToString(i) == p + NatToString(j)
    ensures i == j
  {
    assert NatToString(i) == (p + NatToString(i))[|p|..];
    assert NatToString(j) == (p + NatToString(j))[|p|..];
    NatToStringInjective(i, j);
  }

  /** Every key of `ks` has the marker character at position 1 drawn from `tags`. */
  predicate TaggedWith(ks: seq<string>, tags: set<char>) {
    forall i :: 0 <= i < |ks| ==> |ks[i]| > 1 && ks[i][1] in tags
  }

  lemma KeysAppend(x: seq<(string, string)>, y: seq<(string, string)>)
    ensures Keys(x + y) == Keys(x) + Keys(y)
  {
  }

  /** Two duplicate-free key lists whose markers differ concatenate without duplicates. */
  lemma DistinctConcat(x: seq<string>, y: seq<string>, tx: set<char>, ty: set<char>)
    requires NoDuplicates(x) && NoDuplicates(y) && TaggedWith(x, tx) && TaggedWith(y, ty) && tx !! ty
    ensures NoDuplicates(x + y) && TaggedWith(x + y, tx + ty)
  {
    forall i, j | 0 <= i < j < |x + y| ensures (x + y)[i] != (x + y)[j] {
      if i < |x| && j >= |x| {
        assert (x + y)[i][1] in tx && (x + y)[j][1] in ty;
      }
    }
  }

  lemma NumberedKeys(p: string, ks: seq<string>)
    requires |p| > 1
    requires forall i :: 0 <= i < |ks| ==> ks[i] == p + NatToString(i)
    ensures NoDuplicates(ks) && TaggedWith(ks, {p[1]})
  {
    forall i, j | 0 <= i < j < |ks| ensures ks[i] != ks[j] {
      if ks[i] == ks[j] {
        PrefixedKeyInjective(p, i, j);
      }
    }
  }

  lemma NotTagged(x: string, ks: seq<string>, tags: set<char>)
    requires TaggedWith(ks, tags) && |x| > 1 && x[1] !in tags
    ensures x !in ks
  {
  }

  /** The résumé dictionary's keys, segment by segment, with their markers. */
  lemma ResumeKeySegments(r: ResumeData)
    ensures var ka := if Truthy(r.summary) then ["summary"] else [];
            var kb := Keys(ExperienceSections(r.experience));
            var kc := if r.skills != [] then ["skills"] else [];
            var kd := Keys(EducationSections(r.education));
            && Keys(ResumeSections(r)) == ka + kb + kc + kd
            && NoDuplicates(kb) && TaggedWith(kb, {'x'})
            && NoDuplicates(kd) && TaggedWith(kd, {'d'})
  {
    var a := if Truthy(r.summary) then [("summary", r.summary.value)] else [];
    var b := ExperienceSections(r.experience);
    var c := if r.skills != [] then [("skills", Join(r.skills, ", "))] else [];
    var d := EducationSections(r.education);
    assert ResumeSections(r) == a + b + c + d;
    KeysAppend(a, b);
    KeysAppend(a + b, c);
    KeysAppend(a + b + c, d);
    ExperienceKeysDistinct(r.experience);
    EducationKeysDistinct(r.education);
  }

  lemma ExperienceKeysDistinct(es: seq<ExperienceEntry>)
    ensures NoDuplicates(Keys(ExperienceSections(es))) && TaggedWith(Keys(ExperienceSections(es)), {'x'})
  {
    var ks := Keys(ExperienceSections(es));
    assert forall i :: 0 <= i < |ks| ==> ks[i] == "experience_" + NatToString(i);
    NumberedKeys("experience_", ks);
  }

  lemma EducationKeysDistinct(ed: seq<EducationEntry>)
    ensures NoDuplicates(Keys(EducationSections(ed))) && TaggedWith(Keys(EducationSections(ed)), {'d'})
  {
    var ks := Keys(EducationSections(ed));
    assert forall i :: 0 <= i < |ks| ==> ks[i] == "education_" + NatToString(i);
    NumberedKeys("education_", ks);
  }

  /** No key of the résumé dictionary is repeated, so no section overwrites another. */
  lemma ResumeSectionKeys(r: ResumeData)
    ensures NoDuplicates(Keys(ResumeSections(r)))
  {
    ResumeKeySegments(r);
    var ka := if Truthy(r.summary) then ["summary"] else [];
    var kb := Keys(ExperienceSections(r.experience));
    var kc := if r.skills != [] then ["skills"] else [];
    var kd := Keys(EducationSections(r.education));
    assert TaggedWith(ka, {'u'}) && TaggedWith(kc, {'k'});
    DistinctConcat(ka, kb, {'u'}, {'x'});
    DistinctConcat(ka + kb, kc, {'u', 'x'}, {'k'});
    DistinctConcat(ka + kb + kc, kd, {'u', 'x', 'k'}, {'d'});
  }

  /** `summary` is a key exactly when the summary is non-empty and `skills` exactly when there are skills. */
  lemma ResumeNamedKeys(r: ResumeData)
    ensures "summary" in Keys(ResumeSections(r)) <==> Truthy(r.summary)
    ensures "skills" in Keys(ResumeSections(r)) <==> r.skills != []
  {
    ResumeKeySegments(r);
    var ka := if Truthy(r.summary) then ["summary"] else [];
    var kb := Keys(ExperienceSections(r.experience));
    var kc := if r.skills != [] then ["skills"] else [];
    var kd := Keys(EducationSections(r.education));
    assert |"summary"| != |"skills"|;
    NotTagged("summary", kb, {'x'});
    NotTagged("summary", kd, {'d'});
    NotTagged("skills", kb, {'x'});
    NotTagged("skills", kd, {'d'});
  }

  /** One `experience_i` section per entry and one `education_i` section per entry, and nothing else but summary and skills. */
  lemma ResumeSectionEntries(r: ResumeData)
    ensures |ResumeSections(r)| == (if Truthy(r.summary) then 1 else 0) + |r.experience|
                                   + (if r.skills != [] then 1 else 0) + |r.education|
    ensures forall i :: 0 <= i < |r.experience| ==> (ExperienceKey(i), ExperienceSection(r.experience[i])) in ResumeSections(r)
    ensures forall i :: 0 <= i < |r.education| ==> (EducationKey(i), EducationSection(r.education[i])) in ResumeSections(r)
  {
    var a := if Truthy(r.summary) then [("summary", r.summary.value)] else [];
    var b := ExperienceSections(r.experience);
    var c := if r.skills != [] then [("skills", Join(r.skills, ", "))] else [];
    var d := EducationSections(r.education);
    var s := ResumeSections(r);
    assert s == a + b + c + d;
    forall i | 0 <= i < |r.experience| ensures (ExperienceKey(i), ExperienceSection(r.experience[i])) in s {
      assert s[|a| + i] == b[i];
    }
    forall i | 0 <= i < |r.education| ensures (EducationKey(i), EducationSection(r.education[i])) in s {
      assert s[|a| + |b| + |c| + i] == d[i];
    }
  }

  /** The role section: the title, plus " at company" when the company is non-empty. */
  function RoleSection(jd: JobDescription): string {
    jd.roleTitle + (if Truthy(jd.company) then " at " + jd.company.value else "")
  }

  function OptionalSection(key: string, items: seq<string>, sep: string): seq<(string, string)> {
    if items != [] then [(key, Join(items, sep))] else []
  }

  /** `_extract_jd_sections`: the JD's sections in dictionary insertion order. */
  function JdSections(jd: JobDescription): seq<(string, string)> {
    [("role", RoleSection(jd))]
    + OptionalSection("responsibilities", jd.responsibilities, " ")
    + OptionalSection("requirements", jd.requirements, " ")
    + OptionalSection("preferred", jd.preferredQualifications, " ")
    + OptionalSection("required_skills", jd.requiredSkills, ", ")
    + OptionalSection("preferred_skills", jd.preferredSkills, ", ")
  }

  /**
   * The JD dictionary always holds `role` first, so the JD side is never
   * empty, and each list field contributes one section exactly when it is
   * non-empty.
   */
  lemma JdSectionCount(jd: JobDescription)
    ensures |JdSections(jd)| >= 1 && JdSections(jd)[0] == ("role", RoleSection(jd))
    ensures |JdSections(jd)| == 1 + (if jd.responsibilities != [] then 1 else 0)
                                  + (if jd.requirements != [] then 1 else 0)
                                  + (if jd.preferredQualifications != [] then 1 else 0)
                                  + (if jd.requiredSkills != [] then 1 else 0)
                                  + (if jd.preferredSkills != [] then 1 else 0)
  {
  }

  /** An optional section's key names no other section. */
  lemma OptionalSectionKey(key: string, items: seq<string>, sep: string, x: (string, string))
    requires x in OptionalSection(key, items, sep)
    ensures x == (key, Join(items, sep)) && items != []
  {
  }

  /** The requirements and the required skills each appear as a section exactly when non-empty. */
  lemma JdSectionKeys(jd: JobDescription)
    ensures ("requirements", Join(jd.requirements, " ")) in JdSections(jd) <==> jd.requirements != []
    ensures ("required_skills", Join(jd.requiredSkills, ", ")) in JdSections(jd) <==> jd.requiredSkills != []
  {
    var p0: seq<(string, string)> := [("role", RoleSection(jd))];
    var p1 := OptionalSection("responsibilities", jd.responsibilities, " ");
    var p2 := OptionalSection("requirements", jd.requirements, " ");
    var p3 := OptionalSection("preferred", jd.preferredQualifications, " ");
    var p4 := OptionalSection("required_skills", jd.requiredSkills, ", ");
    var p5 := OptionalSection("preferred_skills", jd.preferredSkills, ", ");
    assert JdSections(jd) == p0 + p1 + p2 + p3 + p4 + p5;
    var x := ("requirements", Join(jd.requirements, " "));
    var y := ("required_skills", Join(jd.requiredSkills, ", "));
    assert |"requirements"| == 12 && |"required_skills"| == 15;
    assert x !in p0 && y !in p0;
    if x in p1 { OptionalSectionKey("responsibilities", jd.responsibilities, " ", x); }
    if x in p3 { OptionalSectionKey("preferred", jd.preferredQualifications, " ", x); }
    if x in p4 { OptionalSectionKey("required_skills", jd.requiredSkills, ", ", x); }
    if x in p5 { OptionalSectionKey("preferred_skills", jd.preferredSkills, ", ", x); }
    if x in p2 { OptionalSectionKey("requirements", jd.requirements, " ", x); }
    if y in p1 { OptionalSectionKey("responsibilities", jd.responsibilities, " ", y); }
    if y in p2 { OptionalSectionKey("requirements", jd.requirements, " ", y); }
    if y in p3 { OptionalSectionKey("preferred", jd.preferredQualifications, " ", y); }
    if y in p5 { OptionalSectionKey("preferred_skills", jd.preferredSkills, ", ", y); }
    if y in p4 { OptionalSectionKey("required_skills", jd.requiredSkills, ", ", y); }
  }

  // ---------------------------------------------------------------- best match

  /**
   * The running maximum over similarities `sims`, started at 0.0 and updated
   * only on a strictly larger value, with the index of the update (-1 when
   * none happened).
   */
  function Best(sims: seq<real>): (real, int) {
    if sims == [] then (0.0, -1)
    else
      var prev := Best(sims[..|sims| - 1]);
      if sims[|sims| - 1] > prev.0 then (sims[|sims| - 1], |sims| - 1) else prev
  }

  /**
   * The best score is at least 0 and at least every similarity; no match is
   * recorded exactly when no similarity exceeds 0; otherwise the match is the
   * first position that reaches the best score.
   */
  lemma {:induction false} BestSpec(sims: seq<real>)
    ensures Best(sims).0 >= 0.0
    ensures forall k :: 0 <= k < |sims| ==> sims[k] <= Best(sims).0
    ensures -1 <= Best(sims).1 < |sims|
    ensures Best(sims).1 == -1 ==> Best(sims).0 == 0.0
    ensures Best(sims).1 == -1 <==> forall k :: 0 <= k < |sims| ==> sims[k] <= 0.0
    ensures Best(sims).1 >= 0 ==>
              sims[Best(sims).1] == Best(sims).0 && forall k :: 0 <= k < Best(sims).1 ==> sims[k] < Best(sims).0
  {
    if sims != [] {
      var init := sims[..|sims| - 1];
      BestSpec(init);
      assert forall k :: 0 <= k < |init| ==> sims[k] == init[k];
    }
  }

  /** The per-section entry of `section_scores`: the best score and the JD key it was matched with. */
  datatype SectionScore = SectionScore(key: string, score: real, matchedWith: Option<string>)

  /**
   * What a section entry promises about résumé vector `v`: the score is at
   * least 0 and at least every similarity with a JD vector; there is no match
   * exactly when no similarity is positive; a match names a JD key whose
   * similarity is the score.
   */
  predicate Scored<E>(e: SectionScore, v: E, jdEmbs: seq<E>, jdKeys: seq<string>, sim: (E, E) -> real)
    requires |jdEmbs| == |jdKeys|
  {
    && e.score >= 0.0
    && (forall j :: 0 <= j < |jdEmbs| ==> sim(v, jdEmbs[j]) <= e.score)
    && (e.matchedWith.None? <==> forall j :: 0 <= j < |jdEmbs| ==> sim(v, jdEmbs[j]) <= 0.0)
    && (e.matchedWith.Some? ==>
          exists j :: 0 <= j < |jdEmbs| && jdKeys[j] == e.matchedWith.value && sim(v, jdEmbs[j]) == e.score)
  }

  /** The inner loop: the best similarity of one résumé vector against every JD vector. */
  method BestMatch<E>(key: string, v: E, jdEmbs: seq<E>, jdKeys: seq<string>, sim: (E, E) -> real)
    returns (e: SectionScore)
    requires |jdEmbs| == |jdKeys|
    ensures e.key == key
    ensures e.score == Best(seq(|jdEmbs|, j requires 0 <= j < |jdEmbs| => sim(v, jdEmbs[j]))).0
    ensures Scored(e, v, jdEmbs, jdKeys, sim)
  {
    ghost var sims := seq(|jdEmbs|, j requires 0 <= j < |jdEmbs| => sim(v, jdEmbs[j]));
    var maxSim := 0.0;
    var best := None;
    ghost var idx := -1;
    var j := 0;
    while j < |jdEmbs|
      invariant 0 <= j <= |jdEmbs|
      invariant (maxSim, idx) == Best(sims[..j])
      invariant -1 <= idx < j
      invariant best == (if idx < 0 then None else Some(jdKeys[idx]))
    {
      assert sims[..j + 1][..j] == sims[..j];
      var s := sim(v, jdEmbs[j]);
      if s > maxSim {
        maxSim := s;
        best := Some(jdKeys[j]);
        idx := j;
      }
      j := j + 1;
    }
    assert sims[..j] == sims;
    BestSpec(sims);
    assert forall j :: 0 <= j < |jdEmbs| ==> sims[j] == sim(v, jdEmbs[j]);
    e := SectionScore(key, maxSim, best);
  }

  // ---------------------------------------------------------------- overall

  function Sum(xs: seq<real>): real {
    if xs == [] then 0.0 else Sum(xs[..|xs| - 1]) + xs[|xs| - 1]
  }

  /** `np.mean`, with 0.0 for no sections. */
  function Mean(xs: seq<real>): real {
    if xs == [] then 0.0 else Sum(xs) / (|xs| as real)
  }

  lemma {:induction false} SumBounds(xs: seq<real>, lo: real, hi: real)
    requires forall k :: 0 <= k < |xs| ==> lo <= xs[k] <= hi
    ensures (|xs| as real) * lo <= Sum(xs) <= (|xs| as real) * hi
  {
    if xs != [] {
      SumBounds(xs[..|xs| - 1], lo, hi);
    }
  }

  /** The mean of values in [lo, hi] lies in [lo, hi]; an empty mean is 0. */
  lemma MeanBounds(xs: seq<real>, lo: real, hi: real)
    requires forall k :: 0 <= k < |xs| ==> lo <= xs[k] <= hi
    ensures xs != [] ==> lo <= Mean(xs) <= hi
    ensures xs == [] ==> Mean(xs) == 0.0
  {
    SumBounds(xs, lo, hi);
  }

  /** The fit level of a score. */
  function Classify(score: real): (level: string)
    ensures level == "High" <==> score >= 0.7
    ensures level == "Medium" <==> 0.5 <= score < 0.7
    ensures level == "Low" <==> score < 0.5
  {
    if score >= 0.7 then "High" else if score >= 0.5 then "Medium" else "Low"
  }

  function LevelRank(level: string): nat {
    if level == "High" then 2 else if level == "Medium" then 1 else 0
  }

  /** A higher score never gets a lower fit level. */
  lemma ClassifyMonotone(a: real, b: real)
    requires a <= b
    ensures LevelRank(Classify(a)) <= LevelRank(Classify(b))
  {
  }

  /** The outer loop: one entry per résumé section, in order, each scored by `BestMatch`. */
  method ScoreSections<E>(keys: seq<string>, embs: seq<E>, jdEmbs: seq<E>, jdKeys: seq<string>, sim: (E, E) -> real)
    returns (sectionScores: seq<SectionScore>)
    requires |keys| == |embs| && |jdEmbs| == |jdKeys|
    ensures |sectionScores| == |keys|
    ensures forall i :: 0 <= i < |keys| ==>
              sectionScores[i].key == keys[i] && Scored(sectionScores[i], embs[i], jdEmbs, jdKeys, sim)
  {
    sectionScores := [];
    var i := 0;
    while i < |keys|
      invariant 0 <= i <= |keys| && |sectionScores| == i
      invariant forall k :: 0 <= k < i ==>
                  sectionScores[k].key == keys[k] && Scored(sectionScores[k], embs[k], jdEmbs, jdKeys, sim)
    {
      var e := BestMatch(keys[i], embs[i], jdEmbs, jdKeys, sim);
      sectionScores := sectionScores + [e];
      i := i + 1;
    }
  }

  function Scores(sectionScores: seq<SectionScore>): seq<real> {
    seq(|sectionScores|, i requires 0 <= i < |sectionScores| => sectionScores[i].score)
  }

  /**
   * `calculate_semantic_fit` on given embeddings: `embeddings` holds one vector
   * per section text, résumé sections first, then JD sections.  Each résumé
   * section gets one entry, in order, scored by its best similarity with the
   * JD vectors; the score is the mean of those best similarities (0.0 for no
   * sections) and the level is its class.
   */
  method CalculateSemanticFit<E>(r: ResumeData, jd: JobDescription, embeddings: seq<E>, sim: (E, E) -> real)
    returns (level: string, score: real, sectionScores: seq<SectionScore>)
    requires |embeddings| == |ResumeSections(r)| + |JdSections(jd)|
    ensures |sectionScores| == |ResumeSections(r)|
    ensures forall i :: 0 <= i < |sectionScores| ==>
              sectionScores[i].key == Keys(ResumeSections(r))[i]
              && Scored(sectionScores[i], embeddings[i], embeddings[|ResumeSections(r)|..], Keys(JdSections(jd)), sim)
    ensures score == Mean(Scores(sectionScores))
    ensures score >= 0.0
    ensures level == Classify(score)
  {
    var resumeSections := ExtractResumeSections(r);
    var jdSections := JdSections(jd);
    var n := |resumeSections|;
    sectionScores := ScoreSections(Keys(resumeSections), embeddings[..n], embeddings[n..], Keys(jdSections), sim);
    var similarities := Scores(sectionScores);
    score := Mean(similarities);
    SumNonNegative(similarities);
    level := Classify(score);
  }

  lemma {:induction false} SumNonNegative(xs: seq<real>)
    requires forall k :: 0 <= k < |xs| ==> xs[k] >= 0.0
    ensures Sum(xs) >= 0.0
  {
    if xs != [] {
      SumNonNegative(xs[..|xs| - 1]);
    }
  }
}
