/**
 * Applying an accepted suggestion to a stored résumé, the suggestion status
 * machine (pending → accepted / rejected / edited) and the export change map.
 *
 * The résumé record is updated in place: a summary is replaced, skills are
 * appended, or the text of one experience bullet is overwritten.  Which slot
 * is touched is decided by the suggestion's section type and, for bullets,
 * by a locator of the form `experience_<i>_bullet_<j>`.
 */
module ResumeEditing {
  import opened Wrappers
  import opened Text
  import opened Collections
  import opened Schemas

  // ---------------------------------------------------------------- pieces shared with the résumé builder

  /**
   * Python list indexing `xs[i]` on a list of length `n`: a negative index
   * counts from the end; anything outside `-n .. n-1` raises `IndexError`
   * (`None`).
   */
  function PyIndex(i: int, n: nat): (r: Option<nat>)
    ensures r.Some? <==> -(n as int) <= i < n
    ensures r.Some? ==> r.value < n && (r.value as int == i || r.value as int == i + n)
    ensures r.Some? && i >= 0 ==> r.value == i
  {
    if 0 <= i < n then Some(i) else if -(n as int) <= i < 0 then Some((n as int + i) as nat) else None
  }

  /** `[s.strip() for s in text.split(',')]` */
  function SkillPieces(text: string): (r: seq<string>)
    ensures |r| == |Split(text, ',')|
    ensures forall k :: 0 <= k < |r| ==> r[k] == Strip(Split(text, ',')[k])
  {
    var parts := Split(text, ',');
    seq(|parts|, k requires 0 <= k < |parts| => Strip(parts[k]))
  }

  /** The append loop: every non-empty piece not yet in the list is appended, in order. */
  function AddSkills(skills: seq<string>, pieces: seq<string>): seq<string> {
    if pieces == [] then skills
    else
      var acc := AddSkills(skills, pieces[..|pieces| - 1]);
      var s := pieces[|pieces| - 1];
      if s != "" && s !in acc then acc + [s] else acc
  }

  /** Existing skills keep their place and order: the old list is a prefix of the new one. */
  lemma {:induction false} AddSkillsPrefix(skills: seq<string>, pieces: seq<string>)
    ensures skills <= AddSkills(skills, pieces)
  {
    if pieces != [] {
      AddSkillsPrefix(skills, pieces[..|pieces| - 1]);
    }
  }

  /** After the loop a skill is present exactly when it was before or is a non-empty piece. */
  lemma {:induction false} AddSkillsMembers(skills: seq<string>, pieces: seq<string>, x: string)
    ensures x in AddSkills(skills, pieces) <==> x in skills || (x != "" && x in pieces)
  {
    if pieces != [] {
      var init := pieces[..|pieces| - 1];
      AddSkillsMembers(skills, init, x);
      assert pieces == init + [pieces[|pieces| - 1]];
    }
  }

  /** No duplicate is introduced: a duplicate-free list stays duplicate-free. */
  lemma {:induction false} AddSkillsDistinct(skills: seq<string>, pieces: seq<string>)
    requires NoDuplicates(skills)
    ensures NoDuplicates(AddSkills(skills, pieces))
  {
    if pieces != [] {
      AddSkillsDistinct(skills, pieces[..|pieces| - 1]);
    }
  }

  /**
   * `xs[e].bullets[b].text = text` guarded by `e < len(xs)` and
   * `b < len(bullets)`, with an `IndexError` swallowed: indices resolve as in
   * Python, so a negative index that is not too small selects from the end.
   */
  function SetBulletText(exp: seq<ExperienceEntry>, e: int, b: int, text: string): (r: seq<ExperienceEntry>)
    ensures |r| == |exp|
    ensures forall i :: 0 <= i < |exp| ==> |r[i].bullets| == |exp[i].bullets|
  {
    if e < |exp| && PyIndex(e, |exp|).Some? then
      var i := PyIndex(e, |exp|).value;
      var bs := exp[i].bullets;
      if b < |bs| && PyIndex(b, |bs|).Some? then
        var j := PyIndex(b, |bs|).value;
        exp[i := exp[i].(bullets := bs[j := bs[j].(text := text)])]
      else exp
    else exp
  }

  /**
   * A located bullet edit changes at most one bullet, and only its text:
   * every entry keeps its company, title, dates and bullet count, and every
   * bullet is either unchanged or the same bullet carrying the new text.
   */
  lemma SetBulletTextFrame(exp: seq<ExperienceEntry>, e: int, b: int, text: string)
    ensures var r := SetBulletText(exp, e, b, text);
            forall i :: 0 <= i < |exp| ==>
              r[i].company == exp[i].company && r[i].title == exp[i].title
              && r[i].startDate == exp[i].startDate && r[i].endDate == exp[i].endDate
              && forall j :: 0 <= j < |exp[i].bullets| ==>
                   r[i].bullets[j] == exp[i].bullets[j] || r[i].bullets[j] == exp[i].bullets[j].(text := text)
  {
  }

  /** In-range non-negative indices rewrite exactly that bullet's text and keep its formatting. */
  lemma SetBulletTextHit(exp: seq<ExperienceEntry>, e: nat, b: nat, text: string)
    requires e < |exp| && b < |exp[e].bullets|
    ensures SetBulletText(exp, e, b, text)[e].bullets[b] == BulletPoint(text, exp[e].bullets[b].formatting)
    ensures forall i, j :: 0 <= i < |exp| && 0 <= j < |exp[i].bullets| && (i, j) != (e, b) ==>
              SetBulletText(exp, e, b, text)[i].bullets[j] == exp[i].bullets[j]
  {
  }

  /** Indices beyond the lists, or below minus their length, change nothing. */
  lemma SetBulletTextMiss(exp: seq<ExperienceEntry>, e: int, b: int, text: string)
    requires e >= |exp| || e < -|exp| || (0 <= e < |exp| && (b >= |exp[e].bullets| || b < -|exp[e].bullets|))
    ensures SetBulletText(exp, e, b, text) == exp
  {
  }

  /** A negative entry index passes the `<` guard and edits counting from the end: -1 is the last entry. */
  lemma SetBulletTextNegative(exp: seq<ExperienceEntry>, text: string)
    requires |exp| > 0 && |exp[|exp| - 1].bullets| > 0
    ensures SetBulletText(exp, -1, -1, text)[|exp| - 1].bullets[|exp[|exp| - 1].bullets| - 1].text == text
  {
    var i := |exp| - 1;
    assert PyIndex(-1, |exp|) == Some(i);
    assert PyIndex(-1, |exp[i].bullets|) == Some(|exp[i].bullets| - 1);
  }

  // ---------------------------------------------------------------- apply_suggestion_to_resume

  /** The text applied: the edited text when it is non-empty, otherwise the suggested text. */
  function NewText(suggested: string, edited: Option<string>): (t: string)
    ensures Truthy(edited) ==> t == edited.value
    ensures !Truthy(edited) ==> t == suggested
  {
    if Truthy(edited) then edited.value else suggested
  }

  /** The locator indices of `experience_<i>_bullet_<j>`: parts 1 and 3 of the `_`-split, when there are at least four. */
  function BulletLocator(sectionId: string): Option<(int, int)> {
    var parts := Split(sectionId, '_');
    if |parts| >= 4 && ParseInt(parts[1]).Some? && ParseInt(parts[3]).Some? then
      Some((ParseInt(parts[1]).value, ParseInt(parts[3]).value))
    else None
  }

  /** The résumé after applying `newText` to the slot named by `sectionType` / `sectionId`. */
  function ApplySuggestionTo(r: ResumeData, sectionType: string, sectionId: Option<string>, newText: string): ResumeData {
    if sectionType == "summary" then r.(summary := Some(newText))
    else if sectionType == "skill" then r.(skills := AddSkills(r.skills, SkillPieces(newText)))
    else if sectionType == "bullet" && Truthy(sectionId) then
      match BulletLocator(sectionId.value)
      case Some((e, b)) => r.(experience := SetBulletText(r.experience, e, b, newText))
      case None => r
    else r
  }

  /**
   * Only the slot the section type names can change: personal info and
   * education never do; a summary edit touches only the summary; a skill
   * edit only appends (existing skills keep their order and no duplicate is
   * introduced); a bullet edit keeps every list length; any other section
   * type changes nothing.
   */
  lemma ApplySuggestionFrame(r: ResumeData, sectionType: string, sectionId: Option<string>, newText: string)
    ensures var r' := ApplySuggestionTo(r, sectionType, sectionId, newText);
            && r'.personalInfo == r.personalInfo && r'.education == r.education && r'.formattingMap == r.formattingMap
            && r.skills <= r'.skills
            && |r'.experience| == |r.experience|
            && (forall i :: 0 <= i < |r.experience| ==> |r'.experience[i].bullets| == |r.experience[i].bullets|)
            && (sectionType == "summary" ==> r' == r.(summary := Some(newText)))
            && (sectionType != "summary" ==> r'.summary == r.summary)
            && (sectionType != "skill" ==> r'.skills == r.skills)
            && (sectionType != "bullet" ==> r'.experience == r.experience)
            && (sectionType !in {"summary", "skill", "bullet"} ==> r' == r)
  {
    AddSkillsPrefix(r.skills, SkillPieces(newText));
  }

  /** A skill edit adds exactly the non-empty trimmed comma pieces not already present, and keeps the list duplicate-free. */
  lemma ApplySkillEdit(r: ResumeData, sectionId: Option<string>, newText: string, x: string)
    ensures x in ApplySuggestionTo(r, "skill", sectionId, newText).skills
            <==> x in r.skills || (x != "" && x in SkillPieces(newText))
    ensures NoDuplicates(r.skills) ==> NoDuplicates(ApplySuggestionTo(r, "skill", sectionId, newText).skills)
  {
    AddSkillsMembers(r.skills, SkillPieces(newText), x);
    if NoDuplicates(r.skills) {
      AddSkillsDistinct(r.skills, SkillPieces(newText));
    }
  }

  /** The locator a generated bullet suggestion carries parses back to its indices. */
  lemma BulletLocatorRoundTrip(e: nat, b: nat)
    ensures BulletLocator("experience_" + NatToString(e) + "_bullet_" + NatToString(b)) == Some((e as int, b as int))
  {
    var se := NatToString(e);
    var sb := NatToString(b);
    LocatorSplit(se, sb);
    var parts := Split("experience_" + se + "_bullet_" + sb, '_');
    assert parts[1] == se && parts[3] == sb;
    ParseNatToString(e);
    ParseNatToString(b);
  }

  lemma LocatorSplit(se: string, sb: string)
    requires AllDigits(se) && AllDigits(sb)
    ensures Split("experience_" + se + "_bullet_" + sb, '_') == ["experience", se, "bullet", sb]
  {
    assert '_' !in se by { assert forall k :: 0 <= k < |se| ==> se[k] != '_'; }
    assert '_' !in sb by { assert forall k :: 0 <= k < |sb| ==> sb[k] != '_'; }
    var parts := ["experience", se, "bullet", sb];
    assert Join(parts[3..], "_") == sb;
    assert Join(parts[2..], "_") == "bullet_" + sb;
    assert Join(parts[1..], "_") == se + "_bullet_" + sb;
    assert Join(parts, "_") == "experience_" + se + "_bullet_" + sb;
    SplitParts(parts, '_');
  }

  /** Joining separator-free pieces and splitting again gives the pieces back. */
  lemma {:induction false} SplitParts(parts: seq<string>, sep: char)
    requires |parts| >= 1
    requires forall k :: 0 <= k < |parts| ==> sep !in parts[k]
    ensures Split(Join(parts, [sep]), sep) == parts
  {
    SplitFromParts(parts, sep, []);
    assert [] + parts[0] == parts[0];
  }

  lemma {:induction false} SplitFromParts(parts: seq<string>, sep: char, acc: string)
    requires |parts| >= 1 && sep !in acc
    requires forall k :: 0 <= k < |parts| ==> sep !in parts[k]
    ensures SplitFrom(Join(parts, [sep]), sep, acc) == [acc + parts[0]] + parts[1..]
    decreases |Join(parts, [sep])|, |parts|
  {
    var p := parts[0];
    if p == [] {
      if |parts| == 1 {
        assert Join(parts, [sep]) == [];
        assert acc + p == acc;
      } else {
        var rest := parts[1..];
        assert Join(parts, [sep]) == [sep] + Join(rest, [sep]);
        assert ([sep] + Join(rest, [sep]))[1..] == Join(rest, [sep]);
        SplitFromParts(rest, sep, []);
        assert [] + rest[0] == rest[0];
        assert acc + p == acc;
        assert [rest[0]] + rest[1..] == rest;
      }
    } else {
      var j := Join(parts, [sep]);
      assert j[0] == p[0];
      var parts' := [p[1..]] + parts[1..];
      assert Join(parts', [sep]) == j[1..] by {
        if |parts| == 1 {
        } else {
          assert j == p + [sep] + Join(parts[1..], [sep]);
          assert parts'[1..] == parts[1..];
        }
      }
      assert sep !in p[1..] by { assert forall c :: c in p[1..] ==> c in p; }
      assert p[0] != sep by { assert p[0] in p; }
      SplitFromParts(parts', sep, acc + [p[0]]);
      assert acc + [p[0]] + p[1..] == acc + p;
    }
  }

  // ---------------------------------------------------------------- the résumé record, updated in place

  class ResumeRecord {
    var personalInfo: PersonalInfo
    var summary: Option<string>
    var experience: seq<ExperienceEntry>
    var education: seq<EducationEntry>
    var skills: seq<string>
    var formattingMap: Option<Formatting>

    function Data(): ResumeData
      reads this
    {
      ResumeData(personalInfo, summary, experience, education, skills, formattingMap)
    }

    constructor (r: ResumeData)
      ensures Data() == r
    {
      personalInfo := r.personalInfo;
      summary := r.summary;
      experience := r.experience;
      education := r.education;
      skills := r.skills;
      formattingMap := r.formattingMap;
    }

    /** The skill loop of `apply_suggestion_to_resume`: append each new non-empty piece. */
    method AppendSkills(pieces: seq<string>)
      modifies this
      ensures Data() == old(Data()).(skills := AddSkills(old(skills), pieces))
    {
      var k := 0;
      while k < |pieces|
        invariant 0 <= k <= |pieces|
        invariant Data() == old(Data()).(skills := AddSkills(old(skills), pieces[..k]))
      {
        assert pieces[..k + 1][..k] == pieces[..k];
        var s := pieces[k];
        if s != "" && s !in skills {
          skills := skills + [s];
        }
        k := k + 1;
      }
      assert pieces[..k] == pieces;
    }

    /** The guarded bullet write of the bullet branch. */
    method WriteBullet(e: int, b: int, text: string)
      modifies this
      ensures Data() == old(Data()).(experience := SetBulletText(old(experience), e, b, text))
    {
      if e < |experience| && -|experience| <= e {
        var i := PyIndex(e, |experience|).value;
        var entry := experience[i];
        if b < |entry.bullets| && -|entry.bullets| <= b {
          var j := PyIndex(b, |entry.bullets|).value;
          var bullet := entry.bullets[j].(text := text);
          experience := experience[i := entry.(bullets := entry.bullets[j := bullet])];
        }
      }
    }

    /** `apply_suggestion_to_resume`: update the one slot the suggestion names. */
    method ApplySuggestion(sectionType: string, sectionId: Option<string>, suggestedText: string, editedText: Option<string>)
      modifies this
      ensures Data() == ApplySuggestionTo(old(Data()), sectionType, sectionId, NewText(suggestedText, editedText))
    {
      var newText := if Truthy(editedText) then editedText.value else suggestedText;
      if sectionType == "summary" {
        summary := Some(newText);
      } else if sectionType == "skill" {
        AppendSkills(SkillPieces(newText));
      } else if sectionType == "bullet" && Truthy(sectionId) {
        WriteLocated(sectionId.value, newText);
      }
    }

    /** The bullet branch: parse `experience_<e>_bullet_<b>` and write there when both indices parse. */
    method WriteLocated(sectionId: string, text: string)
      modifies this
      ensures BulletLocator(sectionId).None? ==> Data() == old(Data())
      ensures BulletLocator(sectionId).Some? ==>
                var (e, b) := BulletLocator(sectionId).value;
                Data() == old(Data()).(experience := SetBulletText(old(experience), e, b, text))
    {
      var parts := Split(sectionId, '_');
      if |parts| >= 4 {
        var e := ParseInt(parts[1]);
        var b := ParseInt(parts[3]);
        if e.Some? && b.Some? {
          WriteBullet(e.value, b.value, text);
        }
      }
    }
  }

  // ---------------------------------------------------------------- suggestion status

  datatype Status = Pending | Accepted | Rejected | Edited

  datatype Action = AcceptRequest | RejectRequest | EditRequest

  /**
   * The status after an action, or `None` when the request is refused with
   * "Suggestion already processed": accept and edit need `pending`, reject
   * is always allowed.
   */
  function Next(s: Status, a: Action): (r: Option<Status>)
    ensures r.None? <==> a != RejectRequest && s != Pending
    ensures r.Some? ==> r.value != Pending
    ensures r.Some? ==> r.value == match a case AcceptRequest => Accepted case RejectRequest => Rejected case EditRequest => Edited
  {
    match a
    case RejectRequest => Some(Rejected)
    case AcceptRequest => if s == Pending then Some(Accepted) else None
    case EditRequest => if s == Pending then Some(Edited) else None
  }

  /** The final status of a run of requests and how many of them applied the suggestion to the résumé. */
  function Run(s: Status, actions: seq<Action>): (Status, nat) {
    if actions == [] then (s, 0)
    else
      var prev := Run(s, actions[..|actions| - 1]);
      var a := actions[|actions| - 1];
      match Next(prev.0, a)
      case None => prev
      case Some(t) => (t, prev.1 + (if a == RejectRequest then 0 else 1))
  }

  /**
   * A suggestion is applied to the résumé at most once, whatever the
   * sequence of accept / reject / edit requests, and never once it has left
   * `pending`.
   */
  lemma {:induction false} AppliedAtMostOnce(s: Status, actions: seq<Action>)
    ensures Run(s, actions).1 <= (if s == Pending then 1 else 0)
    ensures Run(s, actions).1 == 1 ==> Run(s, actions).0 != Pending
    ensures Run(s, actions).0 == Pending ==> s == Pending && Run(s, actions).1 == 0
  {
    if actions != [] {
      AppliedAtMostOnce(s, actions[..|actions| - 1]);
    }
  }

  /** A suggestion row: its status, locator and texts. */
  class SuggestionRecord {
    var status: Status
    var sectionType: string
    var sectionId: Option<string>
    var suggestedText: string
    var editedText: Option<string>

    /** An edited suggestion always has its edited text stored. */
    predicate Valid()
      reads this
    {
      status == Edited ==> editedText.Some?
    }

    constructor (sectionType: string, sectionId: Option<string>, suggestedText: string)
      ensures Valid() && status == Pending && editedText == None
      ensures this.sectionType == sectionType && this.sectionId == sectionId && this.suggestedText == suggestedText
    {
      status := Pending;
      this.sectionType := sectionType;
      this.sectionId := sectionId;
      this.suggestedText := suggestedText;
      editedText := None;
    }

    /** `accept_suggestion`: refused unless pending; otherwise apply the suggested text and mark accepted. */
    method Accept(resume: ResumeRecord) returns (ok: bool)
      requires Valid()
      modifies this, resume
      ensures Valid()
      ensures ok <==> old(status) == Pending
      ensures ok ==> Some(status) == Next(old(status), AcceptRequest)
      ensures ok ==> resume.Data() == ApplySuggestionTo(old(resume.Data()), sectionType, sectionId, suggestedText)
      ensures !ok ==> status == old(status) && resume.Data() == old(resume.Data())
      ensures sectionType == old(sectionType) && sectionId == old(sectionId)
      ensures suggestedText == old(suggestedText) && editedText == old(editedText)
    {
      if status != Pending {
        return false;
      }
      resume.ApplySuggestion(sectionType, sectionId, suggestedText, None);
      status := Accepted;
      ok := true;
    }

    /** `reject_suggestion`: allowed from any state; the résumé is not touched. */
    method Reject()
      requires Valid()
      modifies this
      ensures Valid() && status == Rejected && Some(status) == Next(old(status), RejectRequest)
      ensures sectionType == old(sectionType) && sectionId == old(sectionId)
      ensures suggestedText == old(suggestedText) && editedText == old(editedText)
    {
      status := Rejected;
    }

    /**
     * `edit_suggestion`: refused unless pending; otherwise the edited text
     * replaces the suggested text, is stored, and is what gets applied — even
     * when it is empty, since the suggested text was overwritten first.
     */
    method Edit(resume: ResumeRecord, text: string) returns (ok: bool)
      requires Valid()
      modifies this, resume
      ensures Valid()
      ensures ok <==> old(status) == Pending
      ensures ok ==> Some(status) == Next(old(status), EditRequest)
      ensures ok ==> suggestedText == text && editedText == Some(text)
      ensures ok ==> resume.Data() == ApplySuggestionTo(old(resume.Data()), sectionType, sectionId, text)
      ensures !ok ==> status == old(status) && suggestedText == old(suggestedText) && editedText == old(editedText)
      ensures !ok ==> resume.Data() == old(resume.Data())
      ensures sectionType == old(sectionType) && sectionId == old(sectionId)
    {
      if status != Pending {
        return false;
      }
      suggestedText := text;
      status := Edited;
      editedText := Some(text);
      resume.ApplySuggestion(sectionType, sectionId, suggestedText, Some(text));
      ok := true;
    }
  }

  // ---------------------------------------------------------------- export change map

  /** A stored suggestion row as the export reads it. */
  datatype StoredSuggestion = StoredSuggestion(sectionId: Option<string>, status: Status, suggestedText: string, editedText: Option<string>)

  predicate WellFormed(s: StoredSuggestion) {
    s.status == Edited ==> s.editedText.Some?
  }

  predicate Applied(s: StoredSuggestion) {
    s.status == Accepted || s.status == Edited
  }

  /** The text an exported change carries: the edited text for edited rows, the suggested text otherwise. */
  function ChangeText(s: StoredSuggestion): string
    requires WellFormed(s)
  {
    if s.status == Edited then s.editedText.value else s.suggestedText
  }

  /** An insertion-ordered dictionary, as a list of entries with distinct keys. */
  type Dict<K, V> = seq<(K, V)>

  function DictKeys<K, V>(d: Dict<K, V>): seq<K> {
    seq(|d|, i requires 0 <= i < |d| => d[i].0)
  }

  /** `d[k] = v`: overwrite in place when `k` is present, otherwise append. */
  function DictPut<K(==), V>(d: Dict<K, V>, k: K, v: V): (r: Dict<K, V>)
    ensures |r| == |d| || |r| == |d| + 1
  {
    if d == [] then [(k, v)]
    else if d[0].0 == k then [(k, v)] + d[1..]
    else [d[0]] + DictPut(d[1..], k, v)
  }

  function DictGet<K(==), V>(d: Dict<K, V>, k: K): Option<V> {
    if d == [] then None else if d[0].0 == k then Some(d[0].1) else DictGet(d[1..], k)
  }

  /** Putting overwrites the looked-up key and leaves every other key's value alone; keys stay distinct. */
  lemma {:induction false} DictPutGet<K, V>(d: Dict<K, V>, k: K, v: V, q: K)
    ensures DictGet(DictPut(d, k, v), q) == if q == k then Some(v) else DictGet(d, q)
  {
    if d != [] && d[0].0 != k {
      DictPutGet(d[1..], k, v, q);
    }
  }

  lemma {:induction false} DictPutKeys<K, V>(d: Dict<K, V>, k: K, v: V)
    ensures DictKeys(DictPut(d, k, v)) == if k in DictKeys(d) then DictKeys(d) else DictKeys(d) + [k]
  {
    if d != [] {
      var rest := d[1..];
      assert d == [d[0]] + rest;
      DictKeysCons(d[0], rest);
      if d[0].0 != k {
        DictPutKeys(rest, k, v);
        DictKeysCons(d[0], DictPut(rest, k, v));
        assert [d[0].0] + (DictKeys(rest) + [k]) == [d[0].0] + DictKeys(rest) + [k];
      } else {
        DictKeysCons((k, v), rest);
      }
    }
  }

  lemma DictKeysCons<K, V>(x: (K, V), d: Dict<K, V>)
    ensures DictKeys([x] + d) == [x.0] + DictKeys(d)
  {
    assert forall i :: 0 <= i < |d| ==> ([x] + d)[i + 1] == d[i];
  }

  lemma DictPutDistinct<K, V>(d: Dict<K, V>, k: K, v: V)
    requires NoDuplicates(DictKeys(d))
    ensures NoDuplicates(DictKeys(DictPut(d, k, v)))
  {
    DictPutKeys(d, k, v);
    if k !in DictKeys(d) {
      NoDuplicatesAppend(DictKeys(d), k);
    }
  }

  /** The change map of `export_resume`, entry by entry over the stored rows. */
  function ChangeMap(rows: seq<StoredSuggestion>): Dict<Option<string>, string>
    requires forall i :: 0 <= i < |rows| ==> WellFormed(rows[i])
  {
    if rows == [] then []
    else
      var prev := ChangeMap(rows[..|rows| - 1]);
      var s := rows[|rows| - 1];
      if Applied(s) then DictPut(prev, s.sectionId, ChangeText(s)) else prev
  }

  /**
   * The export map holds each locator at most once; a locator maps to the
   * change text of the LAST accepted or edited row carrying it, and is absent
   * when no such row exists.
   */
  lemma {:induction false} ChangeMapSpec(rows: seq<StoredSuggestion>, k: Option<string>)
    requires forall i :: 0 <= i < |rows| ==> WellFormed(rows[i])
    ensures NoDuplicates(DictKeys(ChangeMap(rows)))
    ensures DictGet(ChangeMap(rows), k).None? <==> forall i :: 0 <= i < |rows| && Applied(rows[i]) ==> rows[i].sectionId != k
    ensures DictGet(ChangeMap(rows), k).Some? ==>
              exists i :: 0 <= i < |rows| && Applied(rows[i]) && rows[i].sectionId == k
                && DictGet(ChangeMap(rows), k).value == ChangeText(rows[i])
                && forall j :: i < j < |rows| && Applied(rows[j]) ==> rows[j].sectionId != k
  {
    if rows != [] {
      var init := rows[..|rows| - 1];
      var s := rows[|rows| - 1];
      ChangeMapSpec(init, k);
      assert forall i :: 0 <= i < |init| ==> init[i] == rows[i];
      if Applied(s) {
        DictPutGet(ChangeMap(init), s.sectionId, ChangeText(s), k);
        DictPutDistinct(ChangeMap(init), s.sectionId, ChangeText(s));
        if s.sectionId == k {
          assert Applied(rows[|rows| - 1]);
        }
      }
    }
  }

  /** The map-building loop of `export_resume` over the accepted and edited rows. */
  method BuildChangeMap(rows: seq<StoredSuggestion>) returns (changes: Dict<Option<string>, string>)
    requires forall i :: 0 <= i < |rows| ==> WellFormed(rows[i])
    ensures changes == ChangeMap(rows)
  {
    changes := [];
    var i := 0;
    while i < |rows|
      invariant 0 <= i <= |rows|
      invariant changes == ChangeMap(rows[..i])
    {
      assert rows[..i + 1][..i] == rows[..i];
      var s := rows[i];
      if s.status == Accepted || s.status == Edited {
        var text := if s.status == Edited then s.editedText.value else s.suggestedText;
        changes := DictPut(changes, s.sectionId, text);
      }
      i := i + 1;
    }
    assert rows[..i] == rows;
  }
}
