/**
 * The LinkedIn job matcher. Search results are filtered to LinkedIn
 * postings and turned into job records. The résumé is read into a profile:
 * ordered titles, weighted skills, keywords and whether it mentions
 * "remote". Each job then scores at most 40 for the title, 35 for the
 * skills, 15 for the keywords and 5 for a remote match. The jobs are ranked
 * by that score.
 *
 * The résumé is the `ResumeData` record whose dumped dictionary the matcher
 * reads. Its printed form, which the remote bonus searches, is the parameter
 * `resumeText`. The class's skill table is a parameter as well;
 * `LinkedInWeights` holds the class's own table.
 */
module LinkedInScraper {
  import opened Wrappers
  import opened Text
  import opened Collections
  import opened Schemas
  import opened Sorting
  import opened Tokens
  import JobScraper
  import JdPostprocess
  import JdSkills

  /** The class's skill weights. */
  const LinkedInWeights: map<string, nat> := map[
    "jira" := 3, "confluence" := 3, "aha" := 3, "figma" := 3, "miro" := 2,
    "amplitude" := 3, "mixpanel" := 3, "tableau" := 3, "sql" := 4, "python" := 3,
    "api" := 3, "aws" := 3, "agile" := 3, "scrum" := 3, "a/b testing" := 3,
    "roadmap" := 3, "okr" := 2, "product" := 2, "strategy" := 2
  ]

  // ---------------------------------------------------------------- search results

  /**
   * One search result. A text field the service leaves out reads as "".
   * City, state and employer are `None` when absent or null.
   */
  datatype Item = Item(
    jobId: string,
    jobTitle: string,
    employerName: Option<string>,
    city: Option<string>,
    state: Option<string>,
    description: string,
    applyLink: string,
    googleLink: string,
    postedAt: string,
    employmentType: string,
    isRemote: bool,
    logo: string)

  /** A job record as `_process_results` builds it. */
  datatype Listing = Listing(
    id: string,
    title: string,
    company: string,
    location: string,
    description: string,
    url: string,
    postedDate: string,
    employmentType: string,
    isRemote: bool,
    logo: string)

  /** A present, non-empty location part. */
  predicate Given(p: Option<string>) {
    p.Some? && p.value != ""
  }

  /** The given parts of city and state, in that order. */
  function Parts(city: Option<string>, state: Option<string>): seq<string> {
    (if Given(city) then [city.value] else []) + (if Given(state) then [state.value] else [])
  }

  /**
   * `_format_location`: city and state joined by ", ", marked "(Remote)" for
   * a remote job ("Remote" alone when there is neither), and
   * "Location not specified" when nothing is left.
   */
  function FormatLocation(city: Option<string>, state: Option<string>, remote: bool): (r: string)
    ensures r != ""
  {
    var location := Join(Parts(city, state), ", ");
    var marked := if remote then (if location != "" then location + " (Remote)" else "Remote") else location;
    if marked != "" then marked else "Location not specified"
  }

  /**
   * The location starts with the city and names the state when they are
   * given, is marked " (Remote)" for a remote job ("Remote" alone without a
   * given part), and falls back to "Location not specified" only for an
   * office job without a given part.
   */
  lemma FormatLocationSpec(city: Option<string>, state: Option<string>, remote: bool)
    ensures var r := FormatLocation(city, state, remote);
            && (Given(city) ==> StartsWith(r, city.value))
            && (Given(state) ==> Contains(r, state.value))
            && (!remote && Given(city) && Given(state) ==> r == city.value + ", " + state.value)
            && (remote ==> if Given(city) || Given(state) then EndsWith(r, " (Remote)") else r == "Remote")
            && (!remote && !Given(city) && !Given(state) ==> r == "Location not specified")
  {
    LocationShape(city, state, remote);
    var loc := Join(Parts(city, state), ", ");
    var suffix := if remote then " (Remote)" else "";
    if Given(city) {
      var rest := if Given(state) then ", " + state.value else "";
      assert loc + suffix == city.value + (rest + suffix);
      assert (loc + suffix)[..|city.value|] == city.value;
    }
    if Given(state) {
      var pre := if Given(city) then city.value + ", " else "";
      assert loc + suffix == pre + state.value + suffix;
      ContainsAt(state.value, state.value, 0);
      ContainsExtend(pre, state.value, suffix, state.value);
    }
    if Given(city) || Given(state) {
      EndsWithAppend(loc, suffix);
    }
  }

  /** The joined parts: the city, the state, or both with ", " between; and what the function makes of them. */
  lemma LocationShape(city: Option<string>, state: Option<string>, remote: bool)
    ensures var loc := Join(Parts(city, state), ", ");
            && (loc == "" <==> !Given(city) && !Given(state))
            && (Given(city) && Given(state) ==> loc == city.value + ", " + state.value)
            && (Given(city) && !Given(state) ==> loc == city.value)
            && (!Given(city) && Given(state) ==> loc == state.value)
            && FormatLocation(city, state, remote)
               == if loc == "" then (if remote then "Remote" else "Location not specified")
                  else loc + (if remote then " (Remote)" else "")
  {
    var parts := Parts(city, state);
    if |parts| == 2 {
      assert parts[1..] == [parts[1]];
    }
  }

  /** The LinkedIn address of a result: its apply link, else its Google link, when it names linkedin.com. */
  function LinkedInUrl(item: Item): Option<string> {
    if Contains(item.applyLink, "linkedin.com") then Some(item.applyLink)
    else if Contains(item.googleLink, "linkedin.com") then Some(item.googleLink)
    else None
  }

  /** The job record of a result with a LinkedIn address; the description is cut to 500 characters. */
  function ListingOf(item: Item): Option<Listing> {
    match LinkedInUrl(item)
    case None => None
    case Some(url) =>
      Some(Listing(item.jobId, item.jobTitle, item.employerName.UnwrapOr("Unknown"),
                   FormatLocation(item.city, item.state, item.isRemote),
                   Take(item.description, 500), url, item.postedAt, item.employmentType,
                   item.isRemote, item.logo))
  }

  /**
   * A result is kept exactly when one of its links names linkedin.com; the
   * apply link is preferred, and the description kept is the first 500
   * characters of the result's.
   */
  lemma ListingOfSpec(item: Item)
    ensures ListingOf(item).Some? <==> Contains(item.applyLink, "linkedin.com") || Contains(item.googleLink, "linkedin.com")
    ensures ListingOf(item).Some? ==>
              var l := ListingOf(item).value;
              && Contains(l.url, "linkedin.com")
              && (Contains(item.applyLink, "linkedin.com") ==> l.url == item.applyLink)
              && |l.description| == Min(|item.description|, 500)
              && l.description == item.description[..|l.description|]
              && l.id == item.jobId && l.title == item.jobTitle && l.isRemote == item.isRemote
  {
  }

  /** `_process_results`, result by result (the cache writes are left out). */
  method ProcessResults(items: seq<Item>) returns (jobs: seq<Listing>)
    ensures jobs == FilterMap(items, ListingOf)
  {
    jobs := FilterMapLoop(items, ListingOf);
  }

  /** The records kept are exactly those of the LinkedIn results, in the results' order. */
  lemma ProcessResultsSpec(items: seq<Item>)
    ensures forall l :: l in FilterMap(items, ListingOf) ==> exists i :: 0 <= i < |items| && ListingOf(items[i]) == Some(l)
    ensures forall i :: 0 <= i < |items| && LinkedInUrl(items[i]).Some? ==> ListingOf(items[i]).value in FilterMap(items, ListingOf)
    ensures forall l :: l in FilterMap(items, ListingOf) ==> Contains(l.url, "linkedin.com") && |l.description| <= 500
  {
    FilterMapFrom(items, ListingOf);
    forall i | 0 <= i < |items| && LinkedInUrl(items[i]).Some?
      ensures ListingOf(items[i]).value in FilterMap(items, ListingOf)
    {
      FilterMapHas(items, ListingOf, i);
    }
    forall l | l in FilterMap(items, ListingOf)
      ensures exists i :: 0 <= i < |items| && ListingOf(items[i]) == Some(l)
      ensures Contains(l.url, "linkedin.com") && |l.description| <= 500
    {
      var x :| x in items && ListingOf(x) == Some(l);
      var i :| 0 <= i < |items| && items[i] == x;
      ListingOfSpec(x);
    }
  }

  // ---------------------------------------------------------------- query

  /** The query of `search_jobs`: the keywords, then "in <location>" when given, then "remote" when asked, space-separated. */
  function Query(keywords: seq<string>, location: string, remoteOnly: bool): string {
    Join(keywords + (if location != "" then ["in " + location] else []) + (if remoteOnly then ["remote"] else []), " ")
  }

  /** The query names every keyword and the location, and ends with "remote" when only remote jobs are asked for. */
  lemma QuerySpec(keywords: seq<string>, location: string, remoteOnly: bool)
    ensures var q := Query(keywords, location, remoteOnly);
            && (forall k :: k in keywords ==> Contains(q, k))
            && (location != "" ==> Contains(q, "in " + location))
            && (remoteOnly ==> EndsWith(q, "remote"))
            && (keywords == [] && location == "" && !remoteOnly ==> q == "")
  {
    var front := keywords + (if location != "" then ["in " + location] else []);
    var parts := front + (if remoteOnly then ["remote"] else []);
    forall k | k in keywords
      ensures Contains(Join(parts, " "), k)
    {
      JoinContainsPart(parts, " ", k);
    }
    if location != "" {
      JoinContainsPart(parts, " ", "in " + location);
    }
    if remoteOnly {
      JoinSnoc(front, " ", "remote");
      if front != [] {
        EndsWithAppend(Join(front, " ") + " ", "remote");
      }
    }
  }

  // ---------------------------------------------------------------- titles

  /** `title.split("|")[0].split(",")[0].strip().lower()` */
  function CleanTitle(title: string): string {
    Lower(Strip(Split(Split(title, '|')[0], ',')[0]))
  }

  /** An entry's cleaned title, kept when it is not empty and under 50 characters. */
  function TitleOf(e: ExperienceEntry): Option<string> {
    var c := CleanTitle(e.title);
    if e.title != "" && c != "" && |c| < 50 then Some(c) else None
  }

  /** The titles `_extract_titles` collects, in entry order, repeats kept. */
  function Titles(es: seq<ExperienceEntry>): seq<string> {
    FilterMap(es, TitleOf)
  }

  /** A cleaned title holds no `|`, no `,` and no capital. */
  lemma CleanTitleShape(title: string)
    ensures var c := CleanTitle(title);
            '|' !in c && ',' !in c && JobScraper.NoCapitals(c)
  {
    var a := Split(title, '|')[0];
    SplitWithin(a, ',');
    var b := Split(a, ',')[0];
    assert '|' !in b;
    StripWithin(b);
    var s := Strip(b);
    var c := Lower(s);
    forall i | 0 <= i < |c|
      ensures c[i] != '|' && c[i] != ','
    {
      assert s[i] in s;
    }
    JobScraper.LowerNoCapitals(s);
  }

  /**
   * Every title is a cleaned entry title that is not empty, under 50
   * characters, without `|`, `,` or capitals; every entry whose cleaned
   * title qualifies contributes it.
   */
  lemma TitlesSpec(es: seq<ExperienceEntry>)
    ensures |Titles(es)| <= |es|
    ensures forall t :: t in Titles(es) <==> exists i :: 0 <= i < |es| && TitleOf(es[i]) == Some(t)
    ensures forall t :: t in Titles(es) ==> t != "" && |t| < 50 && '|' !in t && ',' !in t && JobScraper.NoCapitals(t)
  {
    FilterMapFrom(es, TitleOf);
    forall i | 0 <= i < |es| && TitleOf(es[i]).Some?
      ensures TitleOf(es[i]).value in Titles(es)
    {
      FilterMapHas(es, TitleOf, i);
    }
    forall t | t in Titles(es)
      ensures (exists i :: 0 <= i < |es| && TitleOf(es[i]) == Some(t))
      ensures t != "" && |t| < 50 && '|' !in t && ',' !in t && JobScraper.NoCapitals(t)
    {
      var e :| e in es && TitleOf(e) == Some(t);
      var i :| 0 <= i < |es| && es[i] == e;
      CleanTitleShape(e.title);
    }
  }

  /** `_extract_titles`, entry by entry. */
  method ExtractTitles(resume: ResumeData) returns (titles: seq<string>)
    ensures titles == Titles(resume.experience)
  {
    titles := FilterMapLoop(resume.experience, TitleOf);
  }

  // ---------------------------------------------------------------- skills

  /** `SKILL_WEIGHTS.get(k, 1)` */
  function Weight(table: map<string, nat>, k: string): nat {
    if k in table then table[k] else 1
  }

  /**
   * `_extract_skills`: each résumé skill, lower-cased and stripped, once,
   * with its table weight or 1.
   */
  method ExtractSkills(resume: ResumeData, table: map<string, nat>) returns (skills: JobScraper.Weights)
    ensures JobScraper.DistinctNames(skills)
    ensures forall i :: 0 <= i < |skills| ==> skills[i].1 == Weight(table, skills[i].0)
    ensures forall k :: JobScraper.HasName(skills, k) <==> k in JobScraper.ResumeSkillKeys(resume.skills)
  {
    skills := JobScraper.AssignAll(resume.skills, JobScraper.SkillKey, k => Weight(table, k));
  }

  // ---------------------------------------------------------------- keywords

  /** The words of `\b[A-Z][a-z]+\b` in a bullet that are longer than three letters, lower-cased. */
  function BulletWords(text: string): set<string> {
    set w | w in WordRuns(text) && CapitalisedWord(w) && |w| > 3 :: Lower(w)
  }

  function BulletWordsOf(texts: seq<string>): set<string> {
    if texts == [] then {} else BulletWordsOf(texts[..|texts| - 1]) + BulletWords(texts[|texts| - 1])
  }

  /**
   * `_extract_keywords` as written. It reads a bullet only when the bullet
   * is a string, but the résumé's bullets are records (a text with its
   * formatting), so only the skills count.
   */
  function KeywordsAsWritten(resume: ResumeData): set<string> {
    JobScraper.SkillWords(resume.skills)
  }

  /** `_extract_keywords` reading each bullet's text: the lower-cased skills and the bullets' capitalised words. */
  function Keywords(resume: ResumeData): set<string> {
    JobScraper.SkillWords(resume.skills) + BulletWordsOf(AllBulletTexts(resume.experience))
  }

  /** A bullet word is a lower-cased run of more than three letters. */
  lemma BulletWordsShape(text: string)
    ensures forall k :: k in BulletWords(text) ==> |k| > 3 && AllLetters(k) && JobScraper.NoCapitals(k)
  {
    forall k | k in BulletWords(text)
      ensures |k| > 3 && AllLetters(k) && JobScraper.NoCapitals(k)
    {
      var w :| w in WordRuns(text) && CapitalisedWord(w) && |w| > 3 && k == Lower(w);
      JobScraper.LowerNoCapitals(w);
      forall i | 0 <= i < |k|
        ensures JdPostprocess.IsAsciiLetter(k[i])
      {
        assert i == 0 || IsLowerAscii(w[i]);
      }
    }
  }

  lemma {:induction false} BulletWordsOfShape(texts: seq<string>)
    ensures forall k :: k in BulletWordsOf(texts) ==> |k| > 3 && AllLetters(k) && JobScraper.NoCapitals(k)
  {
    if texts != [] {
      BulletWordsOfShape(texts[..|texts| - 1]);
      BulletWordsShape(texts[|texts| - 1]);
    }
  }

  /**
   * Every keyword is lower-case, so it can be found in the lower-cased job
   * text; one taken from a bullet is a word of more than three letters.
   */
  lemma KeywordsSpec(resume: ResumeData)
    ensures forall k :: k in Keywords(resume) ==> JobScraper.NoCapitals(k)
    ensures forall k :: k in Keywords(resume) && k !in KeywordsAsWritten(resume) ==> |k| > 3 && AllLetters(k)
    ensures KeywordsAsWritten(resume) <= Keywords(resume)
  {
    JobScraper.KeywordsLowercase(resume);
    BulletWordsOfShape(AllBulletTexts(resume.experience));
  }

  /** A résumé with one bullet, "Roadmap", and no skills. */
  function RoadmapResume(): ResumeData {
    ResumeData(PersonalInfo(None, None, None, None, None), None,
               [ExperienceEntry("Acme", "Product Manager", None, None, None, [BulletPoint("Roadmap", None)])],
               [], [], None)
  }

  /** The bullet's word is a keyword once the bullet's text is read, and is lost as written. */
  lemma BulletKeywordLost()
    ensures "roadmap" in Keywords(RoadmapResume())
    ensures KeywordsAsWritten(RoadmapResume()) == {}
  {
    RoadmapTexts();
    RoadmapWord();
    BulletWordsOfOne("Roadmap");
  }

  lemma BulletWordsOfOne(t: string)
    ensures BulletWordsOf([t]) == BulletWords(t)
  {
    assert [t][..0] == [];
  }

  lemma RoadmapTexts()
    ensures AllBulletTexts(RoadmapResume().experience) == ["Roadmap"]
  {
    var es := RoadmapResume().experience;
    assert es[..0] == [];
    assert BulletTexts(es[0].bullets) == ["Roadmap"];
  }

  lemma RoadmapWord()
    ensures "roadmap" in BulletWords("Roadmap")
  {
    var w := "Roadmap";
    RoadmapRuns();
    RoadmapLower();
    assert CapitalisedWord(w);
    BulletWordsHas(w, w);
  }

  /** A capitalised run of more than three letters gives its lower-cased form. */
  lemma BulletWordsHas(text: string, w: string)
    requires w in WordRuns(text) && CapitalisedWord(w) && |w| > 3
    ensures Lower(w) in BulletWords(text)
  {
  }

  lemma RoadmapRuns()
    ensures WordRuns("Roadmap") == ["Roadmap"]
  {
    var w := "Roadmap";
    assert AllWordChars(w) by {
      forall i | 0 <= i < |w|
        ensures JdSkills.IsWordChar(w[i])
      {
        assert IsUpperAscii(w[i]) || IsLowerAscii(w[i]);
      }
    }
    WordRunsOfWord(w, []);
    assert [] + w == w;
  }

  lemma RoadmapLower()
    ensures Lower("Roadmap") == "roadmap"
  {
  }

  /**
   * `_extract_keywords` as written: the skills' lower-cased names. Its loop
   * over the bullets skips every bullet, since none is a string.
   */
  method ExtractKeywords(resume: ResumeData) returns (keywords: set<string>)
    ensures keywords == KeywordsAsWritten(resume)
    ensures forall k :: k in keywords <==> exists s :: s in resume.skills && k == Lower(s)
  {
    keywords := JobScraper.SkillWordsLoop(resume.skills);
  }

  /** `_extract_keywords` reading each bullet's text, as it evidently means to. */
  method ExtractKeywordsFromTexts(resume: ResumeData) returns (keywords: set<string>)
    ensures keywords == Keywords(resume)
  {
    keywords := JobScraper.SkillWordsLoop(resume.skills);
    var texts := AllBulletTexts(resume.experience);
    var words: set<string> := {};
    for j := 0 to |texts|
      invariant words == BulletWordsOf(texts[..j])
    {
      assert texts[..j + 1][..j] == texts[..j];
      words := words + BulletWords(texts[j]);
    }
    assert texts[..|texts|] == texts;
    keywords := keywords + words;
  }

  // ---------------------------------------------------------------- scoring

  /**
   * The title loop: the first résumé title that occurs whole in the job
   * title (40) or shares a word longer than three characters with it (25)
   * scores, and ends the loop.
   */
  function TitleHit(jobTitle: string, titles: seq<string>): (int, seq<string>) {
    if titles == [] then (0, [])
    else if Contains(jobTitle, titles[0]) then (40, ["Title: " + titles[0]])
    else if JobScraper.PartialMatch(jobTitle, titles[0]) then (25, ["Similar: " + titles[0]])
    else TitleHit(jobTitle, titles[1..])
  }

  /** The `i`-th title is the first that matches at all. */
  predicate FirstMatch(jobTitle: string, titles: seq<string>, i: int) {
    && 0 <= i < |titles|
    && (Contains(jobTitle, titles[i]) || JobScraper.PartialMatch(jobTitle, titles[i]))
    && forall j :: 0 <= j < i ==> !Contains(jobTitle, titles[j]) && !JobScraper.PartialMatch(jobTitle, titles[j])
  }

  /**
   * The title part is 0 exactly when no title matches; otherwise it is 40
   * when the first matching title occurs whole in the job title and 25 when
   * it only shares a word, with that title noted.
   */
  lemma {:induction false} TitleHitSpec(jobTitle: string, titles: seq<string>)
    ensures var h := TitleHit(jobTitle, titles);
            && (h.0 == 0 || h.0 == 25 || h.0 == 40)
            && (h.0 == 0 <==> !JobScraper.SimilarTitle(jobTitle, titles))
            && (h.0 == 0 ==> h.1 == [])
            && (forall i :: FirstMatch(jobTitle, titles, i) ==>
                  if Contains(jobTitle, titles[i]) then h == (40, ["Title: " + titles[i]])
                  else h == (25, ["Similar: " + titles[i]]))
  {
    if titles != [] {
      var rest := titles[1..];
      TitleHitSpec(jobTitle, rest);
      forall i | FirstMatch(jobTitle, titles, i) && i > 0
        ensures FirstMatch(jobTitle, rest, i - 1)
      {
        assert rest[i - 1] == titles[i];
        forall j | 0 <= j < i - 1
          ensures !Contains(jobTitle, rest[j]) && !JobScraper.PartialMatch(jobTitle, rest[j])
        {
          assert rest[j] == titles[j + 1];
        }
      }
      if JobScraper.SimilarTitle(jobTitle, rest) {
        var i :| 0 <= i < |rest| && (Contains(jobTitle, rest[i]) || JobScraper.PartialMatch(jobTitle, rest[i]));
        assert titles[i + 1] == rest[i];
      }
      if JobScraper.SimilarTitle(jobTitle, titles) && !Contains(jobTitle, titles[0]) && !JobScraper.PartialMatch(jobTitle, titles[0]) {
        var i :| 0 <= i < |titles| && (Contains(jobTitle, titles[i]) || JobScraper.PartialMatch(jobTitle, titles[i]));
        assert i > 0 && rest[i - 1] == titles[i];
      }
    }
  }

  /** A whole title later in the list does not count once an earlier title shares a word: the order matters. */
  lemma TitleOrderMatters()
    ensures TitleHit("product manager", ["product lead", "product manager"]).0 == 25
    ensures JobScraper.ExactTitle("product manager", ["product lead", "product manager"])
  {
    FirstTitleShares();
    LaterTitleWhole();
  }

  lemma FirstTitleShares()
    ensures TitleHit("product manager", ["product lead", "product manager"]).0 == 25
  {
    NotAt("product manager", "product lead");
    SharesProduct();
  }

  lemma LaterTitleWhole()
    ensures JobScraper.ExactTitle("product manager", ["product lead", "product manager"])
  {
    var titles := ["product lead", "product manager"];
    ContainsAt(titles[1], titles[1], 0);
  }

  /** "product manager" holds "product lead" nowhere. */
  lemma NotAt(s: string, p: string)
    requires s == "product manager" && p == "product lead"
    ensures !Contains(s, p)
  {
    assert p[8] == 'l';
    MissingChar(s, p, 'l');
  }

  /** "product lead" shares its word "product" with "product manager". */
  lemma SharesProduct()
    ensures JobScraper.PartialMatch("product manager", "product lead")
  {
    var w := "product";
    assert forall c :: c in w ==> !IsSpace(c);
    assert "product lead" == w + " lead";
    WordsFromPrefix(w, " lead", []);
    assert [] + w == w;
    assert Words("product lead")[0] == w;
    ContainsAt("product manager", w, 0);
  }

  /** The skills part: three points per matched unit of weight, at most 35. */
  function SkillPoints(text: string, w: JobScraper.Weights): int {
    Min(35, 3 * JobScraper.MatchedWeight(text, w))
  }

  /**
   * The skills part lies in [0, 35]; it is 0 exactly when no weighted skill
   * is found and 35 exactly when the found weight reaches 12.
   */
  lemma SkillPointsSpec(text: string, w: JobScraper.Weights)
    ensures 0 <= SkillPoints(text, w) <= 35
    ensures SkillPoints(text, w) == 0 <==> JobScraper.NoneFound(text, w)
    ensures SkillPoints(text, w) == 35 <==> JobScraper.MatchedWeight(text, w) >= 12
    ensures SkillPoints(text, w) <= 3 * JobScraper.TotalWeight(w)
  {
    JobScraper.MatchedWeightSpec(text, w);
  }

  /** The keywords part: two points per keyword found, at most 15. */
  function KeywordPoints(text: string, keywords: seq<string>): int {
    Min(15, 2 * |JobScraper.FoundIn(text, keywords)|)
  }

  /**
   * For distinct keywords, the keywords part counts the keywords found,
   * two points each, capped at 15; it reaches 15 exactly from eight found.
   */
  lemma KeywordPointsSpec(text: string, keywords: seq<string>)
    requires NoDuplicates(keywords)
    ensures KeywordPoints(text, keywords) == Min(15, 2 * |JobScraper.FoundSet(text, keywords)|)
    ensures 0 <= KeywordPoints(text, keywords) <= 15
    ensures KeywordPoints(text, keywords) == 15 <==> |JobScraper.FoundSet(text, keywords)| >= 8
  {
    JobScraper.DescriptionScoreSpec(text, keywords);
  }

  /** What the matcher reads from the résumé once, before scoring the jobs. */
  datatype Profile = Profile(titles: seq<string>, skills: JobScraper.Weights, keywords: seq<string>, remote: bool)

  /** `p` is what the extraction steps give for the résumé, the skills and keywords each in some order. */
  ghost predicate ProfileOf(p: Profile, resume: ResumeData, resumeText: string, table: map<string, nat>) {
    && p.titles == Titles(resume.experience)
    && JobScraper.DistinctNames(p.skills)
    && (forall i :: 0 <= i < |p.skills| ==> p.skills[i].1 == Weight(table, p.skills[i].0))
    && (forall k :: JobScraper.HasName(p.skills, k) <==> k in JobScraper.ResumeSkillKeys(resume.skills))
    && NoDuplicates(p.keywords) && (forall k :: k in p.keywords <==> k in KeywordsAsWritten(resume))
    && p.remote == Contains(Lower(resumeText), "remote")
  }

  /** A job record with its score and matched keywords. */
  datatype ScoredListing = ScoredListing(listing: Listing, matchScore: int, matchedKeywords: seq<string>)

  /** The lower-cased title and description, the text skills and keywords are looked for in. */
  function JobText(l: Listing): string {
    Lower(l.title + " " + l.description)
  }

  /** The remote bonus: 5 when the job is remote and the résumé mentions "remote". */
  function RemotePoints(l: Listing, p: Profile): int {
    if l.isRemote && p.remote then 5 else 0
  }

  /** The sum of the four parts. */
  function Points(l: Listing, p: Profile): int {
    TitleHit(Lower(l.title), p.titles).0 + SkillPoints(JobText(l), p.skills)
    + KeywordPoints(JobText(l), p.keywords) + RemotePoints(l, p)
  }

  /** The matched titles, then the matched skills in table order. */
  function Matched(l: Listing, p: Profile): seq<string> {
    TitleHit(Lower(l.title), p.titles).1 + JobScraper.MatchedSkills(JobText(l), p.skills)
  }

  /** A job scored against the profile: `min(100, points)` and the first eight matches. */
  function Scored(l: Listing, p: Profile): ScoredListing {
    ScoredListing(l, Min(100, Points(l, p)), Take(Matched(l, p), 8))
  }

  /**
   * The parts add up to at most 95, so the cap of 100 never applies; the
   * score is 0 exactly when no title, skill or keyword matches and the
   * remote bonus is not earned.
   */
  lemma ScoredSpec(l: Listing, p: Profile)
    requires NoDuplicates(p.keywords)
    ensures var s := Scored(l, p);
            && s.matchScore == Points(l, p)
            && 0 <= s.matchScore <= 95
            && (s.matchScore == 0 <==>
                  && !JobScraper.SimilarTitle(Lower(l.title), p.titles)
                  && JobScraper.NoneFound(JobText(l), p.skills)
                  && JobScraper.FoundSet(JobText(l), p.keywords) == {}
                  && !(l.isRemote && p.remote))
            && |s.matchedKeywords| <= 8
            && |s.matchedKeywords| == Min(8, |Matched(l, p)|)
            && s.matchedKeywords == Matched(l, p)[..|s.matchedKeywords|]
            && (forall x :: x in s.matchedKeywords ==> x in Matched(l, p))
  {
    PointsSpec(l, p);
    var m := Matched(l, p);
    assert forall x :: x in Take(m, 8) ==> x in m;
  }

  /** The parts add up to a number in [0, 95], which is 0 only when no part scores. */
  lemma PointsSpec(l: Listing, p: Profile)
    requires NoDuplicates(p.keywords)
    ensures 0 <= Points(l, p) <= 95
    ensures Points(l, p) == 0 <==>
              && !JobScraper.SimilarTitle(Lower(l.title), p.titles)
              && JobScraper.NoneFound(JobText(l), p.skills)
              && JobScraper.FoundSet(JobText(l), p.keywords) == {}
              && !(l.isRemote && p.remote)
  {
    var title := Lower(l.title);
    var text := JobText(l);
    TitleHitSpec(title, p.titles);
    SkillPointsSpec(text, p.skills);
    KeywordPointsSpec(text, p.keywords);
  }

  /** One pass of the loop of `match_jobs_to_resume`. */
  method ScoreListing(l: Listing, p: Profile) returns (s: ScoredListing)
    ensures s == Scored(l, p)
  {
    var jobText := Lower(l.title + " " + l.description);
    var jobTitle := Lower(l.title);
    var score, matched := TitleLoop(jobTitle, p.titles);
    var skillMatches, skillNames := SkillLoop(jobText, p.skills);
    matched := matched + skillNames;
    score := score + Min(35, skillMatches * 3);
    var keywordMatches := KeywordLoop(jobText, p.keywords);
    score := score + Min(15, keywordMatches * 2);
    if l.isRemote && p.remote {
      score := score + 5;
    }
    s := ScoredListing(l, Min(100, score), Take(matched, 8));
  }

  /** The title loop, which stops at the first title that matches. */
  method TitleLoop(jobTitle: string, titles: seq<string>) returns (score: int, matched: seq<string>)
    ensures (score, matched) == TitleHit(jobTitle, titles)
  {
    score, matched := 0, [];
    var i := 0;
    while i < |titles|
      invariant 0 <= i <= |titles|
      invariant TitleHit(jobTitle, titles) == TitleHit(jobTitle, titles[i..])
    {
      var t := titles[i];
      assert titles[i..][1..] == titles[i + 1..];
      if Contains(jobTitle, t) {
        score, matched := 40, ["Title: " + t];
        return;
      } else if JobScraper.PartialMatch(jobTitle, t) {
        score, matched := 25, ["Similar: " + t];
        return;
      }
      i := i + 1;
    }
  }

  /** The skills loop: the matched weight and the matched names, in table order. */
  method SkillLoop(text: string, skills: JobScraper.Weights) returns (weight: nat, names: seq<string>)
    ensures weight == JobScraper.MatchedWeight(text, skills)
    ensures names == JobScraper.MatchedSkills(text, skills)
  {
    weight, names := 0, [];
    for k := 0 to |skills|
      invariant weight == JobScraper.MatchedWeight(text, skills[..k])
      invariant names == JobScraper.MatchedSkills(text, skills[..k])
    {
      assert skills[..k + 1][..k] == skills[..k];
      if Contains(text, skills[k].0) {
        weight := weight + skills[k].1;
        names := names + [skills[k].0];
      }
    }
    assert skills[..|skills|] == skills;
  }

  /** `sum(1 for kw in keywords if kw in text)` */
  method KeywordLoop(text: string, keywords: seq<string>) returns (n: nat)
    ensures n == |JobScraper.FoundIn(text, keywords)|
  {
    n := 0;
    for k := 0 to |keywords|
      invariant n == |JobScraper.FoundIn(text, keywords[..k])|
    {
      assert keywords[..k + 1][..k] == keywords[..k];
      if Contains(text, keywords[k]) {
        n := n + 1;
      }
    }
    assert keywords[..|keywords|] == keywords;
  }

  /** The sort key: higher scores first. */
  function ScoreKey(s: ScoredListing): Key {
    (-s.matchScore, 0.0)
  }

  /** The four extraction steps and the résumé's mention of "remote". */
  method ReadProfile(resume: ResumeData, resumeText: string, table: map<string, nat>) returns (p: Profile)
    ensures ProfileOf(p, resume, resumeText, table)
  {
    var titles := ExtractTitles(resume);
    var skills := ExtractSkills(resume, table);
    var keywords := ExtractKeywords(resume);
    var listed := ListOf(keywords);
    p := Profile(titles, skills, listed, Contains(Lower(resumeText), "remote"));
  }

  /** Every job scored against the profile, in the jobs' order. */
  function ScoreAll(jobs: seq<Listing>, p: Profile): (r: seq<ScoredListing>)
    ensures |r| == |jobs|
  {
    if jobs == [] then [] else ScoreAll(jobs[..|jobs| - 1], p) + [Scored(jobs[|jobs| - 1], p)]
  }

  /** The `i`-th scored job is the `i`-th job scored. */
  lemma {:induction false} ScoreAllAt(jobs: seq<Listing>, p: Profile, i: int)
    requires 0 <= i < |jobs|
    ensures ScoreAll(jobs, p)[i] == Scored(jobs[i], p)
  {
    if i < |jobs| - 1 {
      ScoreAllAt(jobs[..|jobs| - 1], p, i);
    }
  }

  /**
   * `match_jobs_to_resume`: the profile is read once, every job is scored,
   * and the scored jobs are sorted by score, highest first. The sort is
   * stable, so jobs with equal scores keep their order.
   */
  method MatchJobs(jobs: seq<Listing>, resume: ResumeData, resumeText: string, table: map<string, nat>)
    returns (ranked: seq<ScoredListing>, p: Profile)
    ensures ProfileOf(p, resume, resumeText, table)
    ensures SortedBy(ranked, ScoreKey)
    ensures multiset(ranked) == multiset(ScoreAll(jobs, p))
    ensures forall k :: WithKey(ranked, ScoreKey, k) == WithKey(ScoreAll(jobs, p), ScoreKey, k)
  {
    p := ReadProfile(resume, resumeText, table);
    var all: seq<ScoredListing> := [];
    for i := 0 to |jobs|
      invariant all == ScoreAll(jobs[..i], p)
    {
      assert jobs[..i + 1][..i] == jobs[..i];
      var s := ScoreListing(jobs[i], p);
      all := all + [s];
    }
    assert jobs[..|jobs|] == jobs;
    ranked := SortBy(all, ScoreKey);
    SortBySpec(all, ScoreKey);
    forall k
      ensures WithKey(ranked, ScoreKey, k) == WithKey(all, ScoreKey, k)
    {
      SortByStable(all, ScoreKey, k);
    }
  }

  /** `match_jobs_to_resume` with the class's own skill table. */
  method MatchJobsToResume(jobs: seq<Listing>, resume: ResumeData, resumeText: string) returns (ranked: seq<ScoredListing>)
    ensures |ranked| == |jobs|
    ensures SortedBy(ranked, ScoreKey)
    ensures forall s :: s in ranked ==> s.listing in jobs && 0 <= s.matchScore <= 95 && |s.matchedKeywords| <= 8
  {
    var p;
    ranked, p := MatchJobs(jobs, resume, resumeText, LinkedInWeights);
    ghost var scored := ScoreAll(jobs, p);
    assert |ranked| == |multiset(ranked)| == |multiset(scored)| == |scored|;
    forall s | s in ranked
      ensures s.listing in jobs && 0 <= s.matchScore <= 95 && |s.matchedKeywords| <= 8
    {
      assert s in multiset(scored);
      var i :| 0 <= i < |scored| && scored[i] == s;
      ScoreAllAt(jobs, p, i);
      ScoredSpec(jobs[i], p);
    }
  }
}
