/**
 * The language-model path of the résumé parser: the model's reply is
 * cleaned of a Markdown fence, decoded as JSON, and read field by field
 * into a résumé.  Any exception on the way (a reply that is not JSON, a
 * field of the wrong type, a record the schema refuses) makes the whole
 * path give nothing, and the parser falls back to its rules.
 *
 * The reply is a parameter (`None` when the call itself fails or no model
 * client is available), and so is `decode`, the partial function that
 * `json.loads` computes.
 */
module ResumeLlm {
  import opened Wrappers
  import opened Text
  import opened Collections
  import opened Schemas
  import opened LlmReply
  import opened ResumeParser

  // ---------------------------------------------------------------- the fence

  /** `re.sub(r'^```(?:json)?\s*', '', t)`: the opening fence, an optional `json` and the whitespace after it. */
  function DropOpening(t: string): string
    requires StartsWith(t, "```")
  {
    TrimStart(if StartsWith(t, "```json") then t[7..] else t[3..])
  }

  /** `re.sub(r'\s*```$', '', b)`: a closing fence and the whitespace before it. */
  function DropClosing(b: string): string {
    if EndsWith(b, "```") then TrimEnd(b[..|b| - 3]) else b
  }

  /** The reply stripped and, when it starts with a fence, cleaned of both fences. */
  function Unfence(reply: string): string {
    var t := Strip(reply);
    if StartsWith(t, "```") then DropClosing(DropOpening(t)) else t
  }

  /** A reply without a fence is only stripped. */
  lemma UnfenceBare(body: string)
    requires Trimmed(body) && !StartsWith(body, "```")
    ensures Unfence(body) == body
  {
    StripNoSpace(body);
  }

  lemma FencedTail(body: string)
    ensures StartsWith("```json\n" + body + "\n```", "```")
    ensures ("```json\n" + body + "\n```")[7..] == "\n" + (body + "\n```")
  {
  }

  lemma DropOpeningFenced(body: string)
    requires body != [] && !IsSpace(body[0])
    ensures DropOpening("```json\n" + body + "\n```") == body + "\n```"
  {
    FencedTail(body);
    TrimStartNewline(body + "\n```");
  }

  lemma DropClosingFenced(body: string)
    requires body == [] || !IsSpace(body[|body| - 1])
    ensures DropClosing(body + "\n```") == body
  {
    var b := body + "\n```";
    assert EndsWith(b, "```");
    assert b[..|b| - 3] == body + "\n";
    TrimEndNewline(body);
  }

  /** A non-empty body fenced as ```` ```json ```` … ```` ``` ```` on lines of its own comes back out. */
  lemma UnfenceRoundTrip(body: string)
    requires body != [] && Trimmed(body)
    ensures Unfence("```json\n" + body + "\n```") == body
  {
    var fenced := "```json\n" + body + "\n```";
    FencedTrimmed(body);
    FencedTail(body);
    UnfenceStripped(fenced);
    DropOpeningFenced(body);
    DropClosingFenced(body);
  }

  lemma UnfenceStripped(t: string)
    requires Strip(t) == t && StartsWith(t, "```")
    ensures Unfence(t) == DropClosing(DropOpening(t))
  {
  }

  // ---------------------------------------------------------------- fields

  /** An optional text field: JSON null or absent gives `None`, a string gives it, anything else is refused. */
  function OptText(v: Json): (r: Option<Option<string>>)
    ensures r == Some(None) <==> v == Null
    ensures (exists s :: r == Some(Some(s))) <==> v.Str?
  {
    match v
    case Null => Some(None)
    case Str(s) => Some(Some(s))
    case _ => None
  }

  /** A required text field: only a string is accepted. */
  function ReqText(v: Json): (r: Option<string>)
    ensures r.Some? <==> v.Str?
    ensures r.Some? ==> r.value == v.s
  {
    if v.Str? then Some(v.s) else None
  }

  /** `fields.get(key)` as an optional text. */
  function OptField(fields: map<string, Json>, key: string): Option<Option<string>> {
    OptText(Get(fields, key, Null))
  }

  /** `[BulletPoint(text=b.strip()) for b in bullets if isinstance(b, str) and b.strip()]` */
  function BulletReader(): Json -> Option<BulletPoint> {
    (b: Json) => if b.Str? && Strip(b.s) != "" then Some(BulletPoint(Strip(b.s), None)) else None
  }

  function LlmBullets(items: seq<Json>): seq<BulletPoint> {
    FilterMap(items, BulletReader())
  }

  /** Every bullet read is non-empty and stripped. */
  lemma LlmBulletsSpec(items: seq<Json>)
    ensures |LlmBullets(items)| <= |items|
    ensures forall b :: b in LlmBullets(items) ==> b.text != "" && Strip(b.text) == b.text
  {
    FilterMapFrom(items, BulletReader());
    forall b | b in LlmBullets(items) ensures b.text != "" && Strip(b.text) == b.text {
      var j :| j in items && BulletReader()(j) == Some(b);
      StripNoSpace(Strip(j.s));
    }
  }

  /**
   * One experience record: refused when it is not an object or its bullets
   * are not a list; dropped (`Some(None)`) when it has no usable bullet;
   * otherwise company and title default to "Unknown" and must be strings.
   */
  function LlmExperience(v: Json): Option<Option<ExperienceEntry>> {
    if !v.Obj? then None
    else
      var bs := Get(v.fields, "bullets", Arr([]));
      if !bs.Arr? then None
      else
        var bullets := LlmBullets(bs.items);
        if bullets == [] then Some(None)
        else
          var company := ReqText(Get(v.fields, "company", Str("Unknown")));
          var title := ReqText(Get(v.fields, "title", Str("Unknown")));
          var location := OptField(v.fields, "location");
          var start := OptField(v.fields, "start_date");
          var end := OptField(v.fields, "end_date");
          if company.None? || title.None? || location.None? || start.None? || end.None? then None
          else Some(Some(ExperienceEntry(company.value, title.value, location.value, start.value, end.value, bullets)))
  }

  /** The experience records in order; one refused record refuses them all. */
  function LlmExperiences(items: seq<Json>): (r: Option<seq<ExperienceEntry>>)
    ensures r.Some? ==> |r.value| <= |items|
  {
    if items == [] then Some([])
    else
      var prev := LlmExperiences(items[..|items| - 1]);
      var e := LlmExperience(items[|items| - 1]);
      if prev.None? || e.None? then None
      else if e.value.Some? then Some(prev.value + [e.value.value])
      else prev
  }

  /** Every experience entry read has a bullet, and every bullet is non-empty and stripped. */
  lemma {:induction false} LlmExperiencesSpec(items: seq<Json>)
    ensures LlmExperiences(items).Some? ==>
              forall e :: e in LlmExperiences(items).value ==>
                e.bullets != [] && forall b :: b in e.bullets ==> b.text != "" && Strip(b.text) == b.text
  {
    if items != [] {
      var init := items[..|items| - 1];
      LlmExperiencesSpec(init);
      var v := items[|items| - 1];
      var e := LlmExperience(v);
      if LlmExperiences(init).Some? && e.Some? && e.value.Some? {
        assert LlmExperiences(items).value == LlmExperiences(init).value + [e.value.value];
        LlmBulletsSpec(Get(v.fields, "bullets", Arr([])).items);
      }
    }
  }

  /** One education record: an object whose school and degree default to "Unknown". */
  function LlmEducation(v: Json): Option<EducationEntry> {
    if !v.Obj? then None
    else
      var institution := ReqText(Get(v.fields, "institution", Str("Unknown")));
      var degree := ReqText(Get(v.fields, "degree", Str("Unknown")));
      var field := OptField(v.fields, "field");
      var location := OptField(v.fields, "location");
      var graduation := OptField(v.fields, "graduation_date");
      if institution.None? || degree.None? || field.None? || location.None? || graduation.None? then None
      else Some(EducationEntry(institution.value, degree.value, field.value, location.value, graduation.value))
  }

  /** The education records in order; one refused record refuses them all. */
  function LlmEducations(items: seq<Json>): (r: Option<seq<EducationEntry>>)
    ensures r.Some? ==> |r.value| == |items|
  {
    if items == [] then Some([])
    else
      var prev := LlmEducations(items[..|items| - 1]);
      var e := LlmEducation(items[|items| - 1]);
      if prev.None? || e.None? then None else Some(prev.value + [e.value])
  }

  // ---------------------------------------------------------------- skills

  /**
   * The text after a label word `w` (lower case) with an optional plural
   * 's', optional whitespace, ':' and optional whitespace, when `s` starts
   * with that label in any case.
   */
  function AfterLabel(s: string, w: string): Option<string> {
    if |s| >= |w| && Lower(s[..|w|]) == w then AfterColon(DropPlural(s[|w|..])) else None
  }

  /** An optional plural 's' and the whitespace after it. */
  function DropPlural(a: string): string {
    TrimStart(if a != [] && (a[0] == 's' || a[0] == 'S') then a[1..] else a)
  }

  /** ':' and the whitespace after it, when the text starts with ':'. */
  function AfterColon(c: string): Option<string> {
    if c != [] && c[0] == ':' then Some(TrimStart(c[1..])) else None
  }

  /** `re.sub(r'^(Skills?|Certifications?|Technical Skills?)\s*:\s*', '', item, flags=re.IGNORECASE)` */
  function DropLabel(s: string): string {
    match AfterLabel(s, "skill")
    case Some(r) => r
    case None =>
      match AfterLabel(s, "certification")
      case Some(r) => r
      case None =>
        match AfterLabel(s, "technical skill")
        case Some(r) => r
        case None => s
  }

  /** A label spelt in any case, with a plural 's' and ': ', is found in front of an item. */
  lemma AfterLabelPlural(p: string, w: string, x: string)
    requires Lower(p) == w
    requires x == [] || !IsSpace(x[0])
    ensures AfterLabel(p + "s: " + x, w) == Some(x)
  {
    PluralTail(p, x);
    ColonTail(x);
  }

  lemma PluralTail(p: string, x: string)
    ensures (p + "s: " + x)[..|p|] == p
    ensures DropPlural((p + "s: " + x)[|p|..]) == ": " + x
  {
    assert (p + "s: " + x)[|p|..] == "s: " + x;
    assert ("s: " + x)[1..] == ": " + x;
  }

  lemma ColonTail(x: string)
    requires x == [] || !IsSpace(x[0])
    ensures AfterColon(": " + x) == Some(x)
  {
    assert (": " + x)[1..] == " " + x;
    assert (" " + x)[1..] == x;
  }

  /** A label that starts with another letter is not that label. */
  lemma NotLabel(s: string, w: string)
    requires |w| > 0 && |s| >= |w| && LowerChar(s[0]) != w[0]
    ensures AfterLabel(s, w).None?
  {
    assert Lower(s[..|w|])[0] == LowerChar(s[0]);
  }

  /** `Skills: ` in front of an item, in any case, is dropped. */
  lemma DropLabelSkills(p: string, x: string)
    requires Lower(p) == "skill"
    requires x == [] || !IsSpace(x[0])
    ensures DropLabel(p + "s: " + x) == x
  {
    AfterLabelPlural(p, "skill", x);
  }

  /** `Certifications: ` in front of an item, in any case, is dropped. */
  lemma DropLabelCertifications(p: string, x: string)
    requires Lower(p) == "certification"
    requires x == [] || !IsSpace(x[0])
    ensures DropLabel(p + "s: " + x) == x
  {
    var t := p + "s: " + x;
    assert t[0] == p[0];
    NotLabel(t, "skill");
    AfterLabelPlural(p, "certification", x);
  }

  /** `Technical Skills: ` in front of an item, in any case, is dropped. */
  lemma DropLabelTechnical(p: string, x: string)
    requires Lower(p) == "technical skill"
    requires x == [] || !IsSpace(x[0])
    ensures DropLabel(p + "s: " + x) == x
  {
    var t := p + "s: " + x;
    assert t[0] == p[0];
    NotLabel(t, "skill");
    NotLabel(t, "certification");
    AfterLabelPlural(p, "technical skill", x);
  }

  /** The skills one list item contributes: its comma-separated pieces, stripped and non-empty. */
  function SkillPieces(item: Json): seq<string> {
    if !item.Str? || Strip(item.s) == "" then []
    else
      var clean := DropLabel(Strip(item.s));
      if ',' in clean then NonBlankLines(Split(clean, ','))
      else if clean != "" then [clean]
      else []
  }

  function PiecesReader(): Json -> seq<string> {
    (item: Json) => SkillPieces(item)
  }

  /** `skills`: every piece in order, each kept the first time only. */
  function FlattenSkills(items: seq<Json>): seq<string> {
    AppendAbsent([], FlatMap(items, PiecesReader()))
  }

  lemma {:induction false} NonBlankLinesFree(lines: seq<string>, c: char)
    requires forall k :: 0 <= k < |lines| ==> c !in lines[k]
    ensures forall k :: 0 <= k < |NonBlankLines(lines)| ==> c !in NonBlankLines(lines)[k]
  {
    if lines != [] {
      var init := lines[..|lines| - 1];
      assert forall k :: 0 <= k < |init| ==> init[k] == lines[k];
      NonBlankLinesFree(init, c);
      StripWithin(lines[|lines| - 1]);
    }
  }

  /** Every piece is non-empty and holds no comma. */
  lemma SkillPiecesSpec(item: Json)
    ensures forall p :: p in SkillPieces(item) ==> p != "" && ',' !in p
  {
    if item.Str? && Strip(item.s) != "" {
      var clean := DropLabel(Strip(item.s));
      if ',' in clean {
        assert SkillPieces(item) == NonBlankLines(Split(clean, ','));
        NonBlankLinesFree(Split(clean, ','), ',');
      } else {
        assert SkillPieces(item) == if clean != "" then [clean] else [];
      }
    } else {
      assert SkillPieces(item) == [];
    }
  }

  /** The flattened skills have no duplicates, and each is non-empty and free of commas. */
  lemma FlattenSkillsSpec(items: seq<Json>)
    ensures NoDuplicates(FlattenSkills(items))
    ensures forall x :: x in FlattenSkills(items) ==> x != "" && ',' !in x
  {
    var all := FlatMap(items, PiecesReader());
    AppendAbsentSpec([], all);
    FlatMapFrom(items, PiecesReader());
    forall x | x in FlattenSkills(items) ensures x != "" && ',' !in x {
      assert x in all;
      var item :| item in items && x in PiecesReader()(item);
      SkillPiecesSpec(item);
    }
  }

  /** The skills loop of the language-model path. */
  method FlattenSkillsLoop(items: seq<Json>) returns (skills: seq<string>)
    ensures skills == FlattenSkills(items)
  {
    skills := [];
    var i := 0;
    while i < |items|
      invariant 0 <= i <= |items|
      invariant skills == AppendAbsent([], FlatMap(items[..i], PiecesReader()))
    {
      FlatMapNext(items, i, PiecesReader());
      AppendAbsentConcat([], FlatMap(items[..i], PiecesReader()), SkillPieces(items[i]));
      skills := AppendAbsentLoop(skills, SkillPieces(items[i]));
      i := i + 1;
    }
    assert items[..i] == items;
  }

  // ---------------------------------------------------------------- the résumé

  /** Iterating a decoded value as a list; other values are refused. */
  function Items(v: Json): Option<seq<Json>> {
    if v.Arr? then Some(v.items) else None
  }

  /** The résumé the decoded object describes, or `None` when reading it raises. */
  function ResumeFromJson(fields: map<string, Json>): Option<ResumeData> {
    var pi := Get(fields, "personal_info", Obj(map[]));
    if !pi.Obj? then None
    else
      var name := OptField(pi.fields, "name");
      var email := OptField(pi.fields, "email");
      var phone := OptField(pi.fields, "phone");
      var location := OptField(pi.fields, "location");
      var linkedin := OptField(pi.fields, "linkedin");
      var exps := Items(Get(fields, "experience", Arr([])));
      var edus := Items(Get(fields, "education", Arr([])));
      var skills := Items(Get(fields, "skills", Arr([])));
      var summary := OptField(fields, "summary");
      if name.None? || email.None? || phone.None? || location.None? || linkedin.None? then None
      else if exps.None? || edus.None? || skills.None? || summary.None? then None
      else
        var experience := LlmExperiences(exps.value);
        var education := LlmEducations(edus.value);
        if experience.None? || education.None? then None
        else
          Some(ResumeData(PersonalInfo(name.value, email.value, phone.value, location.value, linkedin.value),
                          summary.value, experience.value, education.value, FlattenSkills(skills.value), None))
  }

  /**
   * `_parse_with_llm` as evidently intended, reading the reply text itself:
   * unfence, decode, and read the object.
   */
  function LlmResume(reply: Option<string>, decode: string -> Option<Json>): Option<ResumeData> {
    if reply.None? then None
    else
      var data := decode(Unfence(reply.value));
      if data.Some? && data.value.Obj? then ResumeFromJson(data.value.fields) else None
  }

  /**
   * A résumé read from the model has a bullet in every experience entry,
   * non-empty stripped bullets, skills without duplicates, each non-empty
   * and free of commas, and no formatting map.
   */
  lemma LlmResumeSpec(reply: Option<string>, decode: string -> Option<Json>)
    requires LlmResume(reply, decode).Some?
    ensures var r := LlmResume(reply, decode).value;
            && (forall e :: e in r.experience ==> e.bullets != [] && forall b :: b in e.bullets ==> b.text != "" && Strip(b.text) == b.text)
            && NoDuplicates(r.skills)
            && (forall x :: x in r.skills ==> x != "" && ',' !in x)
            && r.formattingMap.None?
  {
    var data := decode(Unfence(reply.value));
    var fields := data.value.fields;
    LlmExperiencesSpec(Items(Get(fields, "experience", Arr([]))).value);
    FlattenSkillsSpec(Items(Get(fields, "skills", Arr([]))).value);
  }

  /** A reply that is not a JSON object gives nothing. */
  lemma LlmResumeNeedsObject(reply: string, decode: string -> Option<Json>)
    requires !(decode(Unfence(reply)).Some? && decode(Unfence(reply)).value.Obj?)
    ensures LlmResume(Some(reply), decode).None?
  {
  }

  /**
   * `_parse_with_llm` as written: the chat helper already returns the reply
   * text, so `response.choices` raises `AttributeError`, which the path
   * catches; it gives nothing whatever the reply.
   */
  function LlmResumeAsWritten(reply: Option<string>, decode: string -> Option<Json>): (r: Option<ResumeData>)
    ensures r.None?
  {
    None
  }

  /** The empty object `{}` reads as an empty résumé on the intended path but gives nothing as written. */
  lemma LlmPathIsDead(decode: string -> Option<Json>)
    requires decode("{}") == Some(Obj(map[]))
    ensures LlmResume(Some("{}"), decode) == Some(NewResume(NoPersonalInfo()))
    ensures LlmResumeAsWritten(Some("{}"), decode).None?
  {
    assert "{}"[0] == '{' && "{}"[1] == '}';
    assert !StartsWith("{}", "```");
    UnfenceBare("{}");
    EmptyObjectResume();
  }

  /** The empty object reads as a résumé with every field at its default. */
  lemma EmptyObjectResume()
    ensures ResumeFromJson(map[]) == Some(NewResume(NoPersonalInfo()))
  {
    var fields: map<string, Json> := map[];
    assert Get(fields, "personal_info", Obj(map[])) == Obj(map[]);
    assert Items(Get(fields, "skills", Arr([]))) == Some([]);
    assert FlatMap([], PiecesReader()) == [];
  }
}
