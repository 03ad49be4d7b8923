/**
 * The language-model path of the job-description parser: the reply is
 * unfenced and decoded, and the decoded object is read into a
 * `JobDescription` whose legacy fields repeat the match-focused ones.
 *
 * The reply text and the decoder are parameters: `reply` is what the chat
 * helper returns (`None` when the call raises), `decode` the partial
 * function `json.loads` computes.
 */
module JdLlm {
  import opened Wrappers
  import opened Text
  import opened Schemas
  import opened LlmReply
  import opened ResumeLlm

  /** The title used when none is known. */
  const DefaultTitle := "Job Position"

  // ---------------------------------------------------------------- fields

  /** `data.get('role_title', 'Job Position') or 'Job Position'`; a truthy value that is not a string is refused. */
  function TitleOf(v: Json): (r: Option<string>)
    ensures !JsonTruthy(v) ==> r == Some(DefaultTitle)
    ensures JsonTruthy(v) ==> (r.Some? <==> v.Str?)
    ensures r.Some? ==> r.value != ""
  {
    if !JsonTruthy(v) then Some(DefaultTitle)
    else if v.Str? then Some(v.s)
    else None
  }

  /** A JSON array read as a list of strings, refused when any element is not a string. */
  function Strings(items: seq<Json>): (r: Option<seq<string>>)
    ensures r.Some? <==> forall k :: 0 <= k < |items| ==> items[k].Str?
    ensures r.Some? ==> |r.value| == |items| && forall k :: 0 <= k < |items| ==> r.value[k] == items[k].s
  {
    if items == [] then Some([])
    else
      var prev := Strings(items[..|items| - 1]);
      var last := items[|items| - 1];
      if prev.Some? && last.Str? then Some(prev.value + [last.s]) else None
  }

  /** `data.get(key, []) or []` read as a list of strings: a falsy value is the empty list. */
  function StrList(v: Json): (r: Option<seq<string>>)
    ensures !JsonTruthy(v) ==> r == Some([])
    ensures JsonTruthy(v) && r.Some? ==>
              v.Arr? && |r.value| == |v.items| && forall k :: 0 <= k < |v.items| ==> v.items[k] == Str(r.value[k])
    ensures JsonTruthy(v) && v.Arr? && (forall k :: 0 <= k < |v.items| ==> v.items[k].Str?) ==> r.Some?
  {
    if !JsonTruthy(v) then Some([])
    else if v.Arr? then Strings(v.items)
    else None
  }

  /** The JSON array of the given strings. */
  function StrArray(xs: seq<string>): (v: Json)
    ensures v.Arr? && |v.items| == |xs|
    ensures forall k :: 0 <= k < |xs| ==> v.items[k] == Str(xs[k])
  {
    if xs == [] then Arr([])
    else Arr(StrArray(xs[..|xs| - 1]).items + [Str(xs[|xs| - 1])])
  }

  /** A list of strings written as a JSON array reads back as itself. */
  lemma StrListRoundTrip(xs: seq<string>)
    ensures StrList(StrArray(xs)) == Some(xs)
  {
    var v := StrArray(xs);
    if xs != [] {
      assert v.items[0] == Str(xs[0]);
      var r := Strings(v.items);
      assert r.Some?;
      assert r.value == xs;
    }
  }

  /** A non-empty title written as a JSON string reads back as itself. */
  lemma TitleRoundTrip(t: string)
    requires t != ""
    ensures TitleOf(Str(t)) == Some(t)
  {
  }

  // ---------------------------------------------------------------- the object

  /** The job description the decoded object describes, or `None` when building it raises. */
  function JdFromJson(fields: map<string, Json>, text: string): Option<JobDescription> {
    var title := TitleOf(Get(fields, "role_title", Str(DefaultTitle)));
    var summary := OptField(fields, "role_summary");
    var company := OptField(fields, "company");
    var location := OptField(fields, "location");
    var level := OptField(fields, "experience_level");
    var scope := OptField(fields, "team_scope");
    var domain := OptField(fields, "industry_domain");
    var must := StrList(Get(fields, "must_have_requirements", Arr([])));
    var nice := StrList(Get(fields, "nice_to_have_requirements", Arr([])));
    var technical := StrList(Get(fields, "technical_skills", Arr([])));
    var soft := StrList(Get(fields, "soft_skills", Arr([])));
    var emphasis := StrList(Get(fields, "keywords_to_include", Arr([])));
    var duties := StrList(Get(fields, "responsibilities", Arr([])));
    if title.None? || summary.None? || company.None? || location.None? || level.None? || scope.None? || domain.None? then None
    else if must.None? || nice.None? || technical.None? || soft.None? || emphasis.None? || duties.None? then None
    else
      Some(JobDescription(title.value, summary.value, company.value, location.value, level.value, scope.value, domain.value,
                          must.value, nice.value, technical.value, soft.value, emphasis.value,
                          duties.value, must.value, nice.value, technical.value, soft.value, emphasis.value,
                          Some(text)))
  }

  /**
   * `_parse_text_with_llm`: an empty or missing reply gives nothing; the
   * reply is trimmed and unfenced, and it must decode to an object.
   */
  function JdLlm(text: string, reply: Option<string>, decode: string -> Option<Json>): Option<JobDescription> {
    if reply.None? || reply.value == "" then None
    else
      var data := decode(StripFences(reply.value));
      if data.Some? && data.value.Obj? then JdFromJson(data.value.fields, text) else None
  }

  /**
   * A job description read from the model has a title, keeps the whole text,
   * and fills each legacy list from its match-focused counterpart.
   */
  lemma JdLlmSpec(text: string, reply: Option<string>, decode: string -> Option<Json>)
    requires JdLlm(text, reply, decode).Some?
    ensures var jd := JdLlm(text, reply, decode).value;
            && jd.roleTitle != ""
            && jd.rawText == Some(text)
            && jd.requirements == jd.mustHaveRequirements
            && jd.preferredQualifications == jd.niceToHaveRequirements
            && jd.requiredSkills == jd.technicalSkills
            && jd.preferredSkills == jd.softSkills
            && jd.keywords == jd.keywordsToInclude
  {
  }

  /** Each list field is the reply's array of strings under its key. */
  lemma JdFromJsonLists(fields: map<string, Json>, text: string, key: string, xs: seq<string>)
    requires JdFromJson(fields, text).Some?
    requires key in fields && fields[key] == StrArray(xs)
    ensures key == "must_have_requirements" ==> JdFromJson(fields, text).value.mustHaveRequirements == xs
    ensures key == "technical_skills" ==> JdFromJson(fields, text).value.technicalSkills == xs
    ensures key == "responsibilities" ==> JdFromJson(fields, text).value.responsibilities == xs
  {
    StrListRoundTrip(xs);
  }

  /** The empty object reads as a description with the default title and every list empty. */
  lemma EmptyObjectJd(text: string)
    ensures JdFromJson(map[], text) == Some(NewJobDescription(DefaultTitle).(rawText := Some(text)))
  {
  }

  /** A reply wrapped in a ```` ```json ```` fence reads as the bare reply. */
  lemma JdLlmFenced(text: string, body: string, decode: string -> Option<Json>)
    requires Unfenced(body) && body != ""
    ensures JdLlm(text, Some("```json\n" + body + "\n```"), decode) == JdLlm(text, Some(body), decode)
  {
    StripFencesRoundTrip(body);
    BareBody(body);
  }

  /** A reply that does not decode to an object gives nothing. */
  lemma JdLlmNeedsObject(text: string, reply: string, decode: string -> Option<Json>)
    requires !(decode(StripFences(reply)).Some? && decode(StripFences(reply)).value.Obj?)
    ensures JdLlm(text, Some(reply), decode).None?
  {
  }
}
