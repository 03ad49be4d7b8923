/**
 * The data half of résumé regeneration: the export's change map (locator →
 * new text) is applied to a deep copy of the résumé before it is rendered.
 *
 * A locator is the exact key `summary`, a bullet locator
 * `experience_<i>_bullet_<j>`, or any key starting with `skill`; every other
 * key is ignored.  A missing (`None`) key makes the whole call raise.
 */
module ResumeBuilder {
  import opened Wrappers
  import opened Text
  import opened Collections
  import opened Schemas
  import opened ResumeEditing

  /** The bullet indices of an `experience_` key: at least four `_`-parts, the third being `bullet`. */
  function ExperienceLocator(key: string): Option<(int, int)> {
    var parts := Split(key, '_');
    if |parts| >= 4 && parts[2] == "bullet" && ParseInt(parts[1]).Some? && ParseInt(parts[3]).Some? then
      Some((ParseInt(parts[1]).value, ParseInt(parts[3]).value))
    else None
  }

  /** One change; `None` when the key is missing, which raises in the source. */
  function ApplyChange(r: ResumeData, key: Option<string>, text: string): Option<ResumeData> {
    if key.None? then None
    else
      var k := key.value;
      if k == "summary" then Some(r.(summary := Some(text)))
      else if StartsWith(k, "experience_") then
        match ExperienceLocator(k)
        case Some((e, b)) => Some(r.(experience := SetBulletText(r.experience, e, b, text)))
        case None => Some(r)
      else if StartsWith(k, "skill") then
        if text in r.skills then Some(r) else Some(r.(skills := AddSkills(r.skills, SkillPieces(text))))
      else Some(r)
  }

  /** All changes in the map's order, stopping at the first failure. */
  function ApplyChanges(r: ResumeData, changes: Dict<Option<string>, string>): Option<ResumeData> {
    if changes == [] then Some(r)
    else
      match ApplyChanges(r, changes[..|changes| - 1])
      case None => None
      case Some(r') => ApplyChange(r', changes[|changes| - 1].0, changes[|changes| - 1].1)
  }

  /** What a successful application keeps: the shape of every list, personal info, education, and the existing skills. */
  predicate Preserves(r: ResumeData, r': ResumeData) {
    && r'.personalInfo == r.personalInfo && r'.education == r.education && r'.formattingMap == r.formattingMap
    && |r'.experience| == |r.experience|
    && (forall i :: 0 <= i < |r.experience| ==> |r'.experience[i].bullets| == |r.experience[i].bullets|)
    && r.skills <= r'.skills
    && (NoDuplicates(r.skills) ==> NoDuplicates(r'.skills))
  }

  lemma ApplyChangePreserves(r: ResumeData, key: Option<string>, text: string)
    ensures ApplyChange(r, key, text).None? <==> key.None?
    ensures ApplyChange(r, key, text).Some? ==> Preserves(r, ApplyChange(r, key, text).value)
  {
    if key.Some? {
      var k := key.value;
      if k == "summary" {
      } else if StartsWith(k, "experience_") {
        match ExperienceLocator(k)
        case Some((e, b)) =>
          var r' := r.(experience := SetBulletText(r.experience, e, b, text));
          assert ApplyChange(r, key, text) == Some(r');
        case None =>
      } else if StartsWith(k, "skill") && text !in r.skills {
        var r' := r.(skills := AddSkills(r.skills, SkillPieces(text)));
        assert ApplyChange(r, key, text) == Some(r');
        AddSkillsPrefix(r.skills, SkillPieces(text));
        if NoDuplicates(r.skills) {
          AddSkillsDistinct(r.skills, SkillPieces(text));
        }
      }
    }
  }

  lemma PreservesTrans(a: ResumeData, b: ResumeData, c: ResumeData)
    requires Preserves(a, b) && Preserves(b, c)
    ensures Preserves(a, c)
  {
  }

  /**
   * Applying a change map fails exactly when some key is missing; otherwise
   * the experience list, each bullet list, the education list and the
   * personal info keep their shape, and skills only grow at the end without
   * introducing duplicates.
   */
  lemma {:induction false} ApplyChangesPreserves(r: ResumeData, changes: Dict<Option<string>, string>)
    ensures ApplyChanges(r, changes).None? <==> exists i :: 0 <= i < |changes| && changes[i].0.None?
    ensures ApplyChanges(r, changes).Some? ==> Preserves(r, ApplyChanges(r, changes).value)
  {
    ApplyChangesFails(r, changes);
    ApplyChangesKeeps(r, changes);
  }

  lemma {:induction false} ApplyChangesFails(r: ResumeData, changes: Dict<Option<string>, string>)
    ensures ApplyChanges(r, changes).None? <==> MissingKey(changes)
  {
    if changes != [] {
      ApplyChangesFails(r, changes[..|changes| - 1]);
      ApplyChangesStep(r, changes);
      MissingKeySnoc(changes);
    }
  }

  /** The map fails when its prefix fails or its last key is missing. */
  lemma ApplyChangesStep(r: ResumeData, changes: Dict<Option<string>, string>)
    requires changes != []
    ensures ApplyChanges(r, changes).None?
            <==> ApplyChanges(r, changes[..|changes| - 1]).None? || changes[|changes| - 1].0.None?
  {
    var init := changes[..|changes| - 1];
    var last := changes[|changes| - 1];
    if ApplyChanges(r, init).Some? {
      ApplyChangeFails(ApplyChanges(r, init).value, last.0, last.1);
    }
  }

  /** Some key of the map is missing. */
  predicate MissingKey(changes: Dict<Option<string>, string>) {
    exists i :: 0 <= i < |changes| && changes[i].0.None?
  }

  lemma MissingKeySnoc(changes: Dict<Option<string>, string>)
    requires changes != []
    ensures MissingKey(changes) <==> MissingKey(changes[..|changes| - 1]) || changes[|changes| - 1].0.None?
  {
    var init := changes[..|changes| - 1];
    assert forall i :: 0 <= i < |init| ==> init[i] == changes[i];
  }

  lemma {:induction false} ApplyChangesKeeps(r: ResumeData, changes: Dict<Option<string>, string>)
    ensures ApplyChanges(r, changes).Some? ==> Preserves(r, ApplyChanges(r, changes).value)
  {
    if changes != [] && ApplyChanges(r, changes).Some? {
      var init := changes[..|changes| - 1];
      var last := changes[|changes| - 1];
      ApplyChangesKeeps(r, init);
      var mid := ApplyChanges(r, init).value;
      ApplyChangePreserves(mid, last.0, last.1);
      PreservesTrans(r, mid, ApplyChange(mid, last.0, last.1).value);
    }
  }

  lemma ApplyChangeFails(r: ResumeData, key: Option<string>, text: string)
    ensures ApplyChange(r, key, text).None? <==> key.None?
  {
    ApplyChangePreserves(r, key, text);
  }

  /** A key that is not `summary` and starts with neither `experience_` nor `skill` changes nothing. */
  lemma UnknownKeyIgnored(r: ResumeData, k: string, text: string)
    requires k != "summary" && !StartsWith(k, "experience_") && !StartsWith(k, "skill")
    ensures ApplyChange(r, Some(k), text) == Some(r)
  {
  }

  /** A skill change whose whole text is already a skill changes nothing, even if its comma pieces are new. */
  lemma SkillTextAlreadyPresent(r: ResumeData, k: string, text: string)
    requires StartsWith(k, "skill") && text in r.skills
    ensures ApplyChange(r, Some(k), text) == Some(r)
  {
    assert k != "summary" && !StartsWith(k, "experience_") by {
      assert k[..5] == "skill";
      assert k[1] == 'k';
    }
  }

  /**
   * As written: the summary suggestion is stored under `summary_section`,
   * which is not the exact key `summary`, does not start with `experience_`
   * or `skill`, and so is silently ignored.
   */
  lemma SummarySectionIgnored(r: ResumeData, text: string)
    ensures ApplyChange(r, Some("summary_section"), text) == Some(r)
  {
    var k := "summary_section";
    assert k != "summary" by { assert |k| != |"summary"|; }
    assert !StartsWith(k, "experience_") by { assert k[0] != 'e'; }
    assert !StartsWith(k, "skill") by { assert k[..5][1] != "skill"[1]; }
    UnknownKeyIgnored(r, k, text);
  }

  /** The intended reading: both `summary` and `summary_section` replace the summary. */
  function ApplyChangeFixed(r: ResumeData, key: Option<string>, text: string): Option<ResumeData> {
    if key == Some("summary_section") then Some(r.(summary := Some(text)))
    else ApplyChange(r, key, text)
  }

  /** With the intended reading an accepted summary suggestion reaches the regenerated résumé, and nothing else changes. */
  lemma SummarySectionApplied(r: ResumeData, text: string)
    ensures ApplyChangeFixed(r, Some("summary_section"), text) == Some(r.(summary := Some(text)))
    ensures forall k :: k != "summary_section" ==> ApplyChangeFixed(r, Some(k), text) == ApplyChange(r, Some(k), text)
  {
  }

  /** `_apply_changes_to_data`: a fresh copy of the résumé is updated change by change. */
  method ApplyChangesToData(r: ResumeData, changes: Dict<Option<string>, string>) returns (res: Option<ResumeData>)
    ensures res == ApplyChanges(r, changes)
  {
    var modified := new ResumeRecord(r);
    var i := 0;
    while i < |changes|
      invariant 0 <= i <= |changes|
      invariant ApplyChanges(r, changes[..i]) == Some(modified.Data())
      modifies modified
    {
      assert changes[..i + 1][..i] == changes[..i];
      var (key, text) := changes[i];
      if key.None? {
        assert ApplyChanges(r, changes[..i + 1]) == None;
        NoneStaysNone(r, changes, i + 1);
        return None;
      }
      var k := key.value;
      if k == "summary" {
        modified.summary := Some(text);
      } else if StartsWith(k, "experience_") {
        var parts := Split(k, '_');
        if |parts| >= 4 && parts[2] == "bullet" {
          var e := ParseInt(parts[1]);
          var b := ParseInt(parts[3]);
          if e.Some? && b.Some? {
            modified.WriteBullet(e.value, b.value, text);
          }
        }
      } else if StartsWith(k, "skill") {
        if text !in modified.skills {
          modified.AppendSkills(SkillPieces(text));
        }
      }
      i := i + 1;
    }
    assert changes[..i] == changes;
    res := Some(modified.Data());
  }

  /** Once a change has failed, the rest of the map is not applied. */
  lemma {:induction false} NoneStaysNone(r: ResumeData, changes: Dict<Option<string>, string>, n: nat)
    requires n <= |changes| && ApplyChanges(r, changes[..n]) == None
    ensures ApplyChanges(r, changes) == None
    decreases |changes| - n
  {
    if n < |changes| {
      assert changes[..n + 1][..n] == changes[..n];
      NoneStaysNone(r, changes, n + 1);
    } else {
      assert changes[..n] == changes;
    }
  }
}
