# Résumé tailoring service, modelled in Dafny

The system is a résumé tailoring service. It reads a résumé (PDF, Word or
plain text) and a job description (JD) into structured records. It scores the
résumé against the JD in two ways: an ATS-style keyword/skill/completeness
score, and a semantic fit built from per-section similarities. A language
model proposes rewrites. Each rewrite can be accepted, rejected or edited and
then applied to the résumé, and the résumé is rebuilt from the accepted
changes. Two job searches (a general job API and LinkedIn results found
through a search engine) rank postings against the résumé.

This project models the decision logic of that service: what each step keeps,
drops, caps, orders, scores and writes back. Language-model replies, the JSON
decoder, embeddings and similarity, document readers and the regular
expressions that are not written out become parameters.

| module (file) | models |
|---|---|
| `Schemas` (schemas.dfy) | the records of `src/models/schemas.py`, with their defaults |
| `AtsScorer` (ats_scorer.dfy) | `src/scoring/ats_scorer.py` |
| `SemanticMatcher` (semantic_matcher.dfy) | the section maps and the max/mean/threshold logic of `src/scoring/semantic_matcher.py` |
| `ResumeEditing` (resume_editing.dfy) | `apply_suggestion_to_resume`, the accept/reject/edit status changes and the export change map in `app.py` |
| `JdPostprocess` (jd_postprocess.dfy) | the JD post-processing and the aggressive bullet fallback of `parse_jd` in `app.py` |
| `NearDuplicates` (near_duplicates.dfy) | the 80% near-duplicate test shared by `app.py` and the JD parser |
| `ResumeBuilder` (resume_builder.dfy) | `_apply_changes_to_data` of `src/regeneration/resume_builder.py` |
| `SimpleSuggestions` (simple_suggestions.dfy) | `src/suggestions/simple_suggestion_engine.py` |
| `SuggestionEngine` (suggestion_engine.dfy) | `src/suggestions/suggestion_engine.py` |
| `LlmReply` (llm_reply.dfy) | fence stripping and the `{...}` span fallback around `json.loads` |
| `ResumeParser`, `ResumeLlm`, `ResumeFiles` | `src/parsers/resume_parser.py`: the rule-based parser, the language-model path, and the file entry points |
| `JdParser`, `JdLlm`, `JdTitle`, `JdSections`, `JdSkills` | `src/parsers/jd_parser.py`: `_parse_text`, the language-model path, title inference, the list extractors and the skill extraction |
| `JobScraper` (job_scraper.dfy) | matching, keyword extraction and query building of `src/jobs/job_scraper.py` |
| `LinkedInScraper` (linkedin_scraper.dfy) | matching, extraction, location formatting and the result filter of `src/jobs/linkedin_scraper.py` |
| `Text`, `Tokens`, `Collections`, `Sorting`, `Wrappers` | Python string operations (`strip`, `split`, `lower`, `in`), word-shaped patterns, list facts, the stable `sort`, `Option` |

Where the source changes objects in place, the model does too. The résumé
being edited (`ResumeEditing.ResumeRecord`), a suggestion's status
(`ResumeEditing.SuggestionRecord`) and the JD under post-processing
(`JdPostprocess.JdRecord`) are classes whose methods assign their fields.
Loops that build lists, sets and dictionaries are methods with loop
invariants, each proved equal to a specification function. The lemmas are
stated about those functions.

Some behaviour is kept as written even though it looks accidental:

- Bullet indices parsed from a suggestion key may be negative. They pass
  the `<` bounds checks, and Python then counts from the end of the list.
  The model reproduces this (`ResumeEditing.PyIndex`,
  `ResumeEditing.SetBulletTextNegative`).
- An `IndexError` is swallowed and leaves the résumé unchanged.
- Two error paths can never be reached:
  - The JD parser's "No content found" error (`JdParser.NoContentUnreachable`).
  - The résumé parser's "No content found in resume." error (`ResumeParser.ParseTextNeverNoContent`).
- The 80% length test is a strict `>`, written as `5 * shorter > 4 * longer`.

The defects listed under "## Findings" are kept too. Every entry point runs
the code as written, and each corrected definition appears only as its
row's corrected member:

- The job-API matcher's profile estimates 0 years of experience (`JobScraper.ProfileOf`).
- The LinkedIn matcher's keywords are the skills alone (`LinkedInScraper.ProfileOf`).
- The résumé readers never take the language-model path (`ResumeFiles.ParsePdfIgnoresReply`, `ResumeFiles.ParseDocxIgnoresReply`).
- The JD skill search is the `\b`-wrapped pattern (`JdSkills.Found`).
- The prompt's JD digest renders every nice-to-have line as the literal text (`SimpleSuggestions.JdPromptText`).
- The batch suggestion check compares the texts before the 200-character cut (`SuggestionEngine.ItemResults`).

## Model

| member | source | states |
|---|---|---|
| AtsScorer.AtsScore | src/scoring/ats_scorer.py:51-61 | the weighted 40/40/20 total of three scores in [0, 100] lies in [0, 100], and equals the common value when all three agree |
| AtsScorer.ExtractResumeText | src/scoring/ats_scorer.py:63-80 | the résumé text is the summary (when present), each "title company" heading followed by its bullets, each "degree institution" line and the skills, joined by single spaces |
| AtsScorer.AppendExperienceTexts | src/scoring/ats_scorer.py:70-73 | the experience loop emits each heading followed by that entry's bullet texts, in order |
| AtsScorer.ResumeTextMentions | src/scoring/ats_scorer.py:63-80 | every bullet text and every listed skill occurs in the résumé text |
| AtsScorer.RequirementWordsAreTokens | src/scoring/ats_scorer.py:104-110 | a keyword drawn from requirements or responsibilities is a whitespace token of one of them, lower-cased, longer than 3 and not a stop word |
| AtsScorer.TokensAreRequirementWords | src/scoring/ats_scorer.py:104-110 | conversely every such token is collected |
| AtsScorer.KeywordMatchIff | src/scoring/ats_scorer.py:131-152 | a keyword matches exactly when it occurs in the text, or it ends in "s" and its singular occurs; the "s", "ed" and "ing" variations add nothing |
| AtsScorer.KeywordScoreBounds | src/scoring/ats_scorer.py:123-127 | the keyword score lies in [0, 100]; it is 100 when every keyword matches and 0 when none does |
| AtsScorer.PartitionSet | src/scoring/ats_scorer.py:113-121 | the matched/missing loop puts each keyword on exactly one side, without duplicates |
| AtsScorer.CollectKeywords | src/scoring/ats_scorer.py:98-110 | the collected keyword set is the lower-cased explicit keywords plus the important requirement and responsibility words |
| AtsScorer.KeywordScore | src/scoring/ats_scorer.py:96-129 | the score is the matched fraction of the keyword set times 100; matched and missing hold min(20, count) distinct keywords of the right side each |
| AtsScorer.MentionedSkillsIff | src/scoring/ats_scorer.py:163-165 | a skill is picked up from a bullet exactly when some JD skill lowers to it and occurs, case-insensitively, in the bullet |
| AtsScorer.EntrySkillsIff | src/scoring/ats_scorer.py:160-165 | an entry contributes exactly the skills one of its bullets mentions |
| AtsScorer.ExperienceSkillsIff | src/scoring/ats_scorer.py:159-165 | the experience contributes exactly the skills one bullet of one entry mentions |
| AtsScorer.ResumeSkillSetIff | src/scoring/ats_scorer.py:156-165 | a lower-cased skill is in the résumé's skill set exactly when the résumé lists it or a bullet mentions a JD skill lowering to it |
| AtsScorer.SkillsInBullet | src/scoring/ats_scorer.py:161-165 | the inner loop collects the JD skills one bullet mentions |
| AtsScorer.SkillsInEntry | src/scoring/ats_scorer.py:160-165 | the middle loop collects the skills the bullets of one entry mention |
| AtsScorer.ResumeSkills | src/scoring/ats_scorer.py:156-165 | the built skill set is the listed skills plus those the bullets mention |
| AtsScorer.SkillScoreBounds | src/scoring/ats_scorer.py:177-186 | the skill score lies in [0, 100]; with required skills and no preferred ones it is at most 70, and exactly 70 when all required skills are present; it is 100 when every required and preferred skill is present (and preferred ones exist or nothing is required) |
| AtsScorer.SkillScoreExample | src/scoring/ats_scorer.py:183-186 | skills {python, sql} against required {python, aws} and no preferred skills score 35 |
| AtsScorer.SkillScore | src/scoring/ats_scorer.py:154-191 | the score is the 70/30 formula over the résumé skill set; the matched list holds min(20, matched required + matched preferred) skills, the distinct matched required ones first and the matched preferred ones after; the missing list holds min(20, count) distinct required skills the résumé lacks |
| AtsScorer.SkillLists | src/scoring/ats_scorer.py:186-191 | the matched list is the matched required skills followed by the matched preferred ones, cut to 20; the missing list is min(20, count) distinct required skills that are absent |
| AtsScorer.CompletenessBounds | src/scoring/ats_scorer.py:193-214 | completeness lies in [0, 100]; it is 100 exactly when all six checks pass and 0 exactly when none does |
| AtsScorer.Score | src/scoring/ats_scorer.py:10-49 | the breakdown carries the keyword score over the lower-cased résumé text with its matched and missing keyword lists (min(20, count) distinct each), the skill score with its matched (required first) and missing skill lists, the completeness score and its six checks; each score is in [0, 100], and so is the weighted total |
| SemanticMatcher.ExtractResumeSections | src/scoring/semantic_matcher.py:75-100 | the method builds the résumé's sections in insertion order: summary, experience entries, skills, education entries |
| SemanticMatcher.ExperienceLoop | src/scoring/semantic_matcher.py:84-87 | one "title at company. bullets" section per experience entry, keyed `experience_i` |
| SemanticMatcher.EducationLoop | src/scoring/semantic_matcher.py:94-98 | one "degree from institution[ in field]" section per education entry, keyed `education_i` |
| SemanticMatcher.NatToStringInjective | src/scoring/semantic_matcher.py:87 | distinct indices render to distinct decimal strings |
| SemanticMatcher.ResumeSectionKeys | src/scoring/semantic_matcher.py:75-100 | no key of the résumé dictionary repeats, so no section overwrites another |
| SemanticMatcher.ResumeNamedKeys | src/scoring/semantic_matcher.py:80-91 | `summary` is a key exactly when the summary is non-empty, `skills` exactly when there are skills |
| SemanticMatcher.ResumeSectionEntries | src/scoring/semantic_matcher.py:75-100 | the dictionary holds one section per experience entry and per education entry, plus summary and skills when present, and nothing else |
| SemanticMatcher.JdSectionCount | src/scoring/semantic_matcher.py:102-129 | the JD dictionary holds `role` first, so it is never empty, plus one section per non-empty list field |
| SemanticMatcher.JdSectionKeys | src/scoring/semantic_matcher.py:116-125 | the requirements and the required skills each appear as a section exactly when non-empty |
| SemanticMatcher.BestSpec | src/scoring/semantic_matcher.py:47-54 | the best score starts at 0, so it is at least 0 and at least every similarity; no match is recorded exactly when no similarity exceeds 0; otherwise the match is the first position reaching the best score |
| SemanticMatcher.BestMatch | src/scoring/semantic_matcher.py:47-59 | the inner loop records the section's key, its best similarity and the JD key it was reached with |
| SemanticMatcher.MeanBounds | src/scoring/semantic_matcher.py:63 | the mean of values in [lo, hi] lies in [lo, hi]; the mean of nothing is 0.0 |
| SemanticMatcher.Classify | src/scoring/semantic_matcher.py:65-71 | "High" exactly when the score is at least 0.7, "Medium" exactly in [0.5, 0.7), "Low" exactly below 0.5 |
| SemanticMatcher.ClassifyMonotone | src/scoring/semantic_matcher.py:65-71 | a higher score never gets a lower fit level |
| SemanticMatcher.ScoreSections | src/scoring/semantic_matcher.py:46-60 | one entry per résumé section, in order, each scored by its best match |
| SemanticMatcher.CalculateSemanticFit | src/scoring/semantic_matcher.py:13-73 | the first vectors belong to the résumé sections and the rest to the JD; each résumé section gets one entry with its best similarity; the score is their mean, at least 0, and the level is its class |
| JobScraper.TitleVariants | src/jobs/job_scraper.py:346-355 | an entry's titles start with its own title lower-cased, followed by the variations it mentions |
| JobScraper.TitlesOfSpec | src/jobs/job_scraper.py:343-355 | a title is collected exactly when it is a variant of some entry with a non-empty title |
| JobScraper.TitlesLowercase | src/jobs/job_scraper.py:348-355 | every collected title is lower-case |
| JobScraper.ExtractJobTitles | src/jobs/job_scraper.py:340-356 | the returned titles are distinct and are exactly the collected ones |
| JobScraper.OwnSkills | src/jobs/job_scraper.py:363-368 | the first loop gives each résumé skill, lower-cased and stripped, once, with its table weight or 2 |
| JobScraper.AssignAll | src/jobs/job_scraper.py:363-368 | assigning a weight per key leaves each key once, with its weight, and exactly the keys of the list |
| JobScraper.SetName | src/jobs/job_scraper.py:368 | a dict assignment replaces a present key's weight and appends a new key, keeping keys distinct |
| JobScraper.AddFoundSkills | src/jobs/job_scraper.py:388-391 | the second loop adds exactly the table skills found in the text that are not yet present, with their table weight |
| JobScraper.ExtractSkills | src/jobs/job_scraper.py:358-393 | the skill dict names each key once: the résumé's own skills and the table skills found in the summary and bullets, each with its table weight or 2 |
| JobScraper.Years20 | src/jobs/job_scraper.py:406 | every year found by the `20\d{2}` pattern lies in 2000..2099 |
| JobScraper.EstimateYears | src/jobs/job_scraper.py:395-416 | the estimated years are capped at 20 |
| JobScraper.DatesOf | src/jobs/job_scraper.py:402-404 | one dates text per entry: the missing `dates` key as written, the entry's own dates when corrected |
| JobScraper.YearsAsWrittenZero | src/jobs/job_scraper.py:402-416 | as written, every résumé reads as zero years of experience |
| JobScraper.SpanYears | src/jobs/job_scraper.py:406-410 | a "2015 - 2020" span counts five years |
| JobScraper.OneRoleYears | src/jobs/job_scraper.py:397-416 | corrected estimate over `start_date` and `end_date`: a one-role résumé counts that role's years, capped at 20 |
| JobScraper.FiveYearsCounted | src/jobs/job_scraper.py:402-416 | a role from 2015 to 2020 counts five years over its own dates and none as written |
| JobScraper.SumEntryYears | src/jobs/job_scraper.py:395-416 | the loop computes the capped sum of the years of the entries' dates texts, at most 20 |
| JobScraper.EstimateExperienceYears | src/jobs/job_scraper.py:395-416 | as written the estimate is 0 for every résumé, because each entry's missing `dates` reads as "" |
| JobScraper.KeywordsLowercase | src/jobs/job_scraper.py:418-444 | every keyword is lower-case; a summary word has at least four letters and is no stop word |
| JobScraper.ExtractAllKeywords | src/jobs/job_scraper.py:418-444 | the keyword set is the lower-cased skills, the summary's long words and the bullets' capitalised terms longer than 3 |
| JobScraper.SkillWordsLoop | src/jobs/job_scraper.py:423-425 | the skill loop adds each skill lower-cased |
| JobScraper.BulletKeywordsLoop | src/jobs/job_scraper.py:435-442 | the bullet loop adds each capitalised term longer than 3, lower-cased |
| JobScraper.TitleLoopSpec | src/jobs/job_scraper.py:451-459 | the title loop reaches 40 exactly when a résumé title occurs whole in the job title, else 25 exactly when a word longer than 3 is shared, else 0 |
| JobScraper.TitleScoreSpec | src/jobs/job_scraper.py:446-467 | the title part is 40 on a whole title, else 35 for a product-management role on both sides, else 25 on a shared long word, else 0 |
| JobScraper.ScoreTitleMatch | src/jobs/job_scraper.py:446-467 | the method computes that score and the "Title:", "Similar:" and "PM Role Match" labels |
| JobScraper.MatchedWeightSpec | src/jobs/job_scraper.py:471-478 | the matched weight is at most the total, equal to it exactly when every skill is found, 0 exactly when none is |
| JobScraper.SkillsScoreSpec | src/jobs/job_scraper.py:469-484 | the skills part lies in [0, 35]; it is 35 exactly when every weighted skill is found and 0 exactly when none is |
| JobScraper.ScoreSkillsMatch | src/jobs/job_scraper.py:469-484 | the method computes that score and the found skills in dict order |
| JobScraper.TitleYears | src/jobs/job_scraper.py:492-500 | the level read from a job title asks for 1, 3, 5 or 8 years |
| JobScraper.MaxOf | src/jobs/job_scraper.py:506 | the largest mention is one of the mentions and no smaller than any |
| JobScraper.RequiredYearsSpec | src/jobs/job_scraper.py:502-508 | a description naming years sets the requirement to the largest number named; otherwise the title level decides |
| JobScraper.FivePlusYears | src/jobs/job_scraper.py:503 | "5+ years" names five years |
| JobScraper.MaxLoop | src/jobs/job_scraper.py:506 | the loop finds the largest mention |
| JobScraper.ExperienceScoreSpec | src/jobs/job_scraper.py:510-518 | the experience part is 15, 10, 5 or 0; 15 exactly when the years suffice; it never drops as the years grow |
| JobScraper.ScoreExperienceMatch | src/jobs/job_scraper.py:486-518 | the method scores the years against the required years read from title and description |
| JobScraper.FoundIn | src/jobs/job_scraper.py:522-526 | the matches are exactly the keywords occurring in the description, in order, without duplicates when the keywords have none |
| JobScraper.DescriptionScoreSpec | src/jobs/job_scraper.py:528-530 | for distinct keywords the description part is the number found, capped at 10 |
| JobScraper.ScoreDescriptionMatch | src/jobs/job_scraper.py:520-532 | the method computes that score and the first five matches |
| JobScraper.BreakdownBounds | src/jobs/job_scraper.py:296-321 | each part stays within its share: 40, 35, 15 and 10 |
| JobScraper.ClampIdle | src/jobs/job_scraper.py:323-324 | the total lies in [0, 100], so the clamp never changes the score |
| JobScraper.ScoreJob | src/jobs/job_scraper.py:288-333 | one loop pass records the clamped whole score, min(10, distinct matched labels) distinct matched labels drawn from the matches, and the four-part breakdown |
| JobScraper.ReadProfile | src/jobs/job_scraper.py:283-286 | the profile is the titles, weighted skills, years (as written, 0) and keywords read from the résumé |
| JobScraper.MatchJobs | src/jobs/job_scraper.py:271-338 | every job is scored against the profile; the ranking is sorted by descending score, is a permutation of the scored jobs, and keeps the order of equal scores |
| JobScraper.RankedScores | src/jobs/job_scraper.py:323-338 | every ranked job comes from the input and its score is its total, within [0, 100] |
| JobScraper.MatchJobsToResume | src/jobs/job_scraper.py:271-338 | with the class's own tables: as many results as jobs, sorted by descending score, each from the input with a score in [0, 100] |
| JobScraper.DropParens | src/jobs/job_scraper.py:555 | removing parenthesised parts only deletes characters and leaves no `(` followed by a `)` |
| JobScraper.CleanTitleShape | src/jobs/job_scraper.py:553-556 | a cleaned title holds no vertical bar and no comma |
| JobScraper.SearchTitlesSpec | src/jobs/job_scraper.py:547-562 | the kept titles are distinct and are exactly the entries' cleaned titles that are non-empty, shorter than 40 and share a word with the title words |
| JobScraper.SearchKeywordsSpec | src/jobs/job_scraper.py:534-573 | one to four distinct keywords; "Product Manager" goes first when a kept title mentions "product" and it is absent, and stands alone when nothing is kept |
| JobScraper.ExtractSearchKeywords | src/jobs/job_scraper.py:534-573 | the method computes those keywords entry by entry |
| JobScraper.QuerySpec | src/jobs/job_scraper.py:137-151 | the query names every stripped keyword of length 3..49 among the first four, falls back to "Product Manager", and ends with " remote" when remote jobs are asked for |
| JobScraper.BuildQuery | src/jobs/job_scraper.py:137-151 | the method builds that query keyword by keyword |
| LinkedInScraper.FormatLocation | src/jobs/linkedin_scraper.py:235-247 | the formatted location is never empty |
| LinkedInScraper.FormatLocationSpec | src/jobs/linkedin_scraper.py:235-247 | the location starts with a given city and names a given state (both as "city, state"); a remote job is marked " (Remote)", or is "Remote" alone without a given part; an office job without a given part reads "Location not specified" |
| LinkedInScraper.ListingOfSpec | src/jobs/linkedin_scraper.py:184-212 | a result is kept exactly when one of its links contains "linkedin.com"; the apply link is preferred; the description is the first min(length, 500) characters of the result's |
| LinkedInScraper.ProcessResults | src/jobs/linkedin_scraper.py:177-233 | the loop keeps the record of each LinkedIn result, in order |
| LinkedInScraper.ProcessResultsSpec | src/jobs/linkedin_scraper.py:184-228 | the records kept are exactly those of the LinkedIn results, in the results' order |
| LinkedInScraper.QuerySpec | src/jobs/linkedin_scraper.py:121-128 | the query names every keyword and "in" the location when one is given, ends with "remote" when only remote jobs are asked for, and is empty when nothing is given |
| LinkedInScraper.CleanTitleShape | src/jobs/linkedin_scraper.py:321 | a cleaned title holds no vertical bar, no comma and no capital |
| LinkedInScraper.TitlesSpec | src/jobs/linkedin_scraper.py:313-324 | every title is a cleaned entry title, non-empty and under 50 characters; every entry whose cleaned title qualifies contributes it |
| LinkedInScraper.ExtractTitles | src/jobs/linkedin_scraper.py:313-324 | the loop collects exactly those titles, in entry order |
| LinkedInScraper.ExtractSkills | src/jobs/linkedin_scraper.py:326-334 | each résumé skill, lower-cased and stripped, appears once, with its table weight or 1, and nothing else appears |
| LinkedInScraper.BulletWordsShape | src/jobs/linkedin_scraper.py:351-353 | a bullet keyword is a lower-cased run of more than three ASCII letters |
| LinkedInScraper.KeywordsSpec | src/jobs/linkedin_scraper.py:336-355 | every keyword is lower-case; one taken from a bullet has more than three letters; the keywords as written are among those read from the bullets' text |
| LinkedInScraper.BulletKeywordLost | src/jobs/linkedin_scraper.py:348-353 | a résumé whose only bullet is "Roadmap" yields the keyword "roadmap" when the bullet's text is read, and no keyword as written |
| LinkedInScraper.ExtractKeywords | src/jobs/linkedin_scraper.py:336-355 | as written the keywords are exactly the skills' lower-cased names, because no bullet is a string |
| LinkedInScraper.ExtractKeywordsFromTexts | src/jobs/linkedin_scraper.py:336-355 | corrected: the loop computes the skills' names together with the capitalised words read from each bullet's text |
| LinkedInScraper.TitleHitSpec | src/jobs/linkedin_scraper.py:277-286 | the title part is 0, 25 or 40; it is 0 exactly when no title matches; otherwise the first matching title decides: 40 with "Title: t" when it occurs whole, 25 with "Similar: t" when it only shares a word longer than 3 |
| LinkedInScraper.TitleOrderMatters | src/jobs/linkedin_scraper.py:278-286 | "product manager" scores 25 against the titles ["product lead", "product manager"], though the second occurs whole: the loop stops at the first match |
| LinkedInScraper.SkillPointsSpec | src/jobs/linkedin_scraper.py:288-295 | the skills part lies in [0, 35], is 0 exactly when no skill is found, 35 exactly when the found weight reaches 12, and at most three times the total weight |
| LinkedInScraper.KeywordPointsSpec | src/jobs/linkedin_scraper.py:297-299 | for distinct keywords the keywords part is two points per keyword found, capped at 15, reaching 15 exactly from eight found |
| LinkedInScraper.PointsSpec | src/jobs/linkedin_scraper.py:277-303 | the parts add up to a number in [0, 95], which is 0 only when no part scores |
| LinkedInScraper.ScoredSpec | src/jobs/linkedin_scraper.py:270-306 | the score is the sum of the parts, so the cap of 100 never applies; it is 0 exactly when nothing matches and the remote bonus is not earned; the matched labels are the first min(8, count) of the full list |
| LinkedInScraper.TitleLoop | src/jobs/linkedin_scraper.py:278-286 | the title loop, which stops at the first match, computes the title part and its label |
| LinkedInScraper.SkillLoop | src/jobs/linkedin_scraper.py:289-293 | the skills loop computes the matched weight and the matched names, in table order |
| LinkedInScraper.KeywordLoop | src/jobs/linkedin_scraper.py:298 | the count is the number of keywords found in the job text |
| LinkedInScraper.ScoreListing | src/jobs/linkedin_scraper.py:270-306 | one loop pass scores a listing as the model's score function does |
| LinkedInScraper.ReadProfile | src/jobs/linkedin_scraper.py:266-268 | the profile is the titles, weighted skills, keywords (as written, the skills only) and the résumé's mention of "remote" |
| LinkedInScraper.ScoreAllAt | src/jobs/linkedin_scraper.py:270-306 | the i-th scored job is the i-th job scored against the profile |
| LinkedInScraper.MatchJobs | src/jobs/linkedin_scraper.py:262-311 | every job is scored against the profile; the ranking is sorted by descending score, is a permutation of the scored jobs, and keeps the order of equal scores |
| LinkedInScraper.MatchJobsToResume | src/jobs/linkedin_scraper.py:262-311 | with the class's own weights: as many results as jobs, sorted by descending score, each from the input with a score in [0, 95] and at most 8 matches |
| SuggestionEngine.Normalized | src/suggestions/suggestion_engine.py:397 | one normalised skill per résumé skill: lower-cased and trimmed |
| SuggestionEngine.MissingSpec | src/suggestions/suggestion_engine.py:400-423 | a skill is reported missing exactly when it is a JD skill that neither equals, contains nor is contained in a normalised résumé skill |
| SuggestionEngine.Missing | src/suggestions/suggestion_engine.py:400-411 | the missing skills are no more than the JD skills |
| SuggestionEngine.IsPresent | src/suggestions/suggestion_engine.py:404-409 | the inner loop, which stops at the first match, finds a match exactly when some normalised résumé skill matches |
| SuggestionEngine.MissingSkills | src/suggestions/suggestion_engine.py:400-411 | the outer loop collects exactly the missing skills, in JD order |
| SuggestionEngine.DisplaySpec | src/suggestions/suggestion_engine.py:429-436 | up to ten skills are shown comma-separated in full; beyond ten the first ten are shown and the display ends with " (N more)" |
| SuggestionEngine.SkillSuggestionShape | src/suggestions/suggestion_engine.py:438-470 | a skill suggestion is a "skill" suggestion for `skills_section`, gains 5.0 when required and 2.0 when preferred, and shows the current skills and the skills with the new one appended |
| SuggestionEngine.SkillSuggestions | src/suggestions/suggestion_engine.py:427-471 | one suggestion per skill, in order, each with its own identifier |
| SuggestionEngine.SkillBlockSpec | src/suggestions/suggestion_engine.py:425-471 | min(2, missing required) required-skill suggestions come first, then at most one preferred-skill suggestion |
| SuggestionEngine.SkillAdditionsSpec | src/suggestions/suggestion_engine.py:385-473 | no suggestion for a résumé without skills; otherwise the first two missing required skills, then the first missing preferred skill |
| SuggestionEngine.SkillAdditionsShape | src/suggestions/suggestion_engine.py:427-471 | at most three skill suggestions, each for `skills_section`, showing the current skills, gaining 5.0 or 2.0 |
| SuggestionEngine.SuggestSkillAdditions | src/suggestions/suggestion_engine.py:385-473 | the loops build exactly those suggestions |
| SuggestionEngine.MaxLengthOf | src/suggestions/suggestion_engine.py:203-204 | the cap is 500 for a summary, 300 for a skill and 200 otherwise, so never below 200 |
| SuggestionEngine.MakeSuggestion | src/suggestions/suggestion_engine.py:239-251 | a built suggestion carries its identifier, the given texts and the item's section type; a gain given as a string is read through `float` |
| SuggestionEngine.BatchItemAsWritten | src/suggestions/suggestion_engine.py:195-256 | as written, a kept item has non-empty texts within the cap of its section type |
| SuggestionEngine.MadeOf | src/suggestions/suggestion_engine.py:241-256 | building from capped texts never fails the batch; a built suggestion carries its identifier and the texts |
| SuggestionEngine.BatchItem | src/suggestions/suggestion_engine.py:195-256 | corrected, a kept item has non-empty texts within the cap of its section type |
| SuggestionEngine.IdenticalAfterCap | src/suggestions/suggestion_engine.py:234-247 | two 201-character texts differing only in the last character are kept as written with the same stored text twice, and dropped when corrected |
| SuggestionEngine.BatchItemDefaults | src/suggestions/suggestion_engine.py:239-251 | an item holding only two short distinct trimmed texts gets section type "bullet", section `unknown`, the default reason, gain 2.0 and an empty JD mapping |
| SuggestionEngine.ItemResults | src/suggestions/suggestion_engine.py:195 | one result per reply item, the k-th being the as-written item check of the k-th item with the k-th identifier |
| SuggestionEngine.CollectSpec | src/suggestions/suggestion_engine.py:195-256 | the loop fails exactly when some item fails; otherwise it keeps exactly the suggestions the items made, no more of them than items |
| SuggestionEngine.CollectFailsAt | src/suggestions/suggestion_engine.py:272-276 | once an item fails, the whole loop fails |
| SuggestionEngine.BatchSpec | src/suggestions/suggestion_engine.py:193-276 | every batch suggestion has two non-empty texts within its section's cap and comes from a reply item by the as-written check; an item that fails makes the batch empty |
| SuggestionEngine.NoOpSuggestionKept | src/suggestions/suggestion_engine.py:233-247 | a one-item reply whose two 201-character texts differ only in the last character yields one suggestion whose two stored texts are equal |
| SuggestionEngine.FilterBatch | src/suggestions/suggestion_engine.py:195-256 | the item loop, checking each item as written, returns the kept suggestions, or none once an item fails |
| SuggestionEngine.RankedSpec | src/suggestions/suggestion_engine.py:67-71 | the result is ordered by descending gain, holds at most the cap drawn from the candidates (all of them when the cap allows), and leaves out no candidate with a larger gain than a returned one |
| SuggestionEngine.SuggestionsSpec | src/suggestions/suggestion_engine.py:46-71 | the final list ranks the batch and the skill suggestions together with those guarantees |
| SuggestionEngine.GenerateSuggestions | src/suggestions/suggestion_engine.py:46-71 | the method extends the batch with the skill suggestions, sorts and truncates |
| SuggestionEngine.JdSummaryRole | src/suggestions/suggestion_engine.py:667 | the digest opens with "ROLE: " and the role title |
| SuggestionEngine.JdSummaryBullets | src/suggestions/suggestion_engine.py:672-682 | the first eight responsibilities and requirements and the first five preferred qualifications appear as "  • " lines |
| SuggestionEngine.JdSummaryRequiredSkills | src/suggestions/suggestion_engine.py:684-685 | a non-empty required-skills list shows its first fifteen entries, comma-separated |
| SuggestionEngine.JdSummaryMinimal | src/suggestions/suggestion_engine.py:665-693 | with no company and all lists empty the digest is the role line alone |
| SuggestionEngine.FirstFive | src/suggestions/suggestion_engine.py:636-639 | slicing keeps the first five items of a list or characters of a string |
| SuggestionEngine.FitFallback | src/suggestions/suggestion_engine.py:643-663 | each fallback list holds at most five entries |
| SuggestionEngine.FitFromObject | src/suggestions/suggestion_engine.py:634-640 | each list of the result holds at most five entries |
| SuggestionEngine.FitSummaryOf | src/suggestions/suggestion_engine.py:615-663 | every outcome holds at most five entries per list |
| SuggestionEngine.FitFromLists | src/suggestions/suggestion_engine.py:634-640 | an object whose four entries are lists gives the first five of each, with its own summary or the default |
| SuggestionEngine.FitSummarySpec | src/suggestions/suggestion_engine.py:615-663 | an empty reply gives the general fallback, an undecodable one the decoding fallback, a decoded object with four lists the first five of each |
| SimpleSuggestions.Cap500 | src/suggestions/simple_suggestion_engine.py:371-375 | a text over 500 characters keeps its first 500 and gains "...", so at most 503; a shorter one is unchanged |
| SimpleSuggestions.TextsOf | src/suggestions/simple_suggestion_engine.py:355-362 | a candidate comes from an object and has two distinct non-empty texts, trimmed |
| SimpleSuggestions.Build | src/suggestions/simple_suggestion_engine.py:377-394 | a built suggestion carries its identifier, the two (truncated) texts and a priority; an item whose priority is not a string is skipped, because its `upper()` raises |
| SimpleSuggestions.BuildStringGain | src/suggestions/simple_suggestion_engine.py:385 | a gain given as the string "3" is read through `float` as 3.0 |
| SimpleSuggestions.BuildDefaults | src/suggestions/simple_suggestion_engine.py:378-391 | an item holding only its two texts gets section type "bullet", section `unknown`, the default reason, gain 2.0, an empty JD mapping, category "experience" and priority "medium" |
| SimpleSuggestions.Views | src/suggestions/simple_suggestion_engine.py:354 | one view per item, the k-th with the k-th identifier |
| SimpleSuggestions.Keys | src/suggestions/simple_suggestion_engine.py:365 | one duplicate key per suggestion: the first 100 characters of the lower-cased original |
| SimpleSuggestions.DedupKeyCap | src/suggestions/simple_suggestion_engine.py:365-373 | truncation keeps the duplicate key of a trimmed text |
| SimpleSuggestions.RunRaises | src/suggestions/simple_suggestion_engine.py:354-398 | processing raises exactly when some item raises, and never builds more suggestions than there are items |
| SimpleSuggestions.ProcessRaises | src/suggestions/simple_suggestion_engine.py:349-400 | the same for the whole list of reply items |
| SimpleSuggestions.ProcessKept | src/suggestions/simple_suggestion_engine.py:355-375 | every built suggestion has two non-empty texts of at most 503 characters, and no two share a duplicate key |
| SimpleSuggestions.RunSeen | src/suggestions/simple_suggestion_engine.py:364-369 | the seen set holds exactly the keys of the candidates processed so far |
| SimpleSuggestions.ProcessFirstWins | src/suggestions/simple_suggestion_engine.py:364-369 | a validated candidate is kept unless an earlier candidate had the same duplicate key |
| SimpleSuggestions.ProcessSuggestions | src/suggestions/simple_suggestion_engine.py:349-400 | the loop with its seen set computes exactly the kept suggestions (gains read through `float`), or raises exactly when processing raises |
| SimpleSuggestions.RaiseStops | src/suggestions/simple_suggestion_engine.py:358-359 | once an item has raised, the remaining items do not matter |
| SimpleSuggestions.TopSpec | src/suggestions/simple_suggestion_engine.py:83-90 | the result is ordered high, medium, low (an unknown priority as medium) and then by descending gain, holds at most the cap drawn from the validated suggestions, and leaves out nothing ranking strictly before a returned one |
| SimpleSuggestions.GenerateSpec | src/suggestions/simple_suggestion_engine.py:63-97 | an empty, undecodable or non-object reply, or one whose processing raises, gives no summary and no suggestions; otherwise the suggestions are the top validated ones |
| SimpleSuggestions.GenerateSuggestions | src/suggestions/simple_suggestion_engine.py:63-97 | the method validates, sorts and truncates as specified |
| SimpleSuggestions.Refine | src/suggestions/simple_suggestion_engine.py:145-153 | an empty reply refines nothing |
| SimpleSuggestions.RefineSpec | src/suggestions/simple_suggestion_engine.py:145-175 | a refined suggestion has the new identifier, keeps the section, original text, gain, JD mapping, category and priority, and takes the new text and reason from the reply, falling back to the old ones |
| SimpleSuggestions.BulletLines | src/suggestions/simple_suggestion_engine.py:270-271 | one tagged line "[i_bullet_j] text" per bullet |
| SimpleSuggestions.ResumeDigestShowsBullets | src/suggestions/simple_suggestion_engine.py:258-281 | every bullet of the first five experience entries is shown, tagged with its entry and bullet index |
| SimpleSuggestions.Bullets | src/suggestions/simple_suggestion_engine.py:299 | one "  • item" line per item |
| SimpleSuggestions.LiteralLines | src/suggestions/simple_suggestion_engine.py:303 | as written, one line per nice-to-have item |
| SimpleSuggestions.JdPromptText | src/suggestions/simple_suggestion_engine.py:38-41 | the JD text of the prompt is the first 6000 characters (or all) of the digest as written |
| SimpleSuggestions.JdDigestShowsMustHave | src/suggestions/simple_suggestion_engine.py:294-299 | the first ten must-have items (or requirements) are listed as bullet lines |
| SimpleSuggestions.NiceToHaveIgnored | src/suggestions/simple_suggestion_engine.py:301-303 | as written, replacing the nice-to-have items by any others of the same number leaves the digest and the prompt's JD text unchanged |
| SimpleSuggestions.NiceToHaveListed | src/suggestions/simple_suggestion_engine.py:295-303 | with the intended rendering each of the first eight nice-to-have items is listed |
| LlmReply.Get | src/suggestions/simple_suggestion_engine.py:358-359 | `get` gives the stored value of a present key and the default of an absent one |
| LlmReply.StripFences | src/suggestions/simple_suggestion_engine.py:324-333 | the cleaned reply is empty or starts and ends with non-whitespace |
| LlmReply.StripFencesRoundTrip | src/suggestions/simple_suggestion_engine.py:324-333 | a trimmed body fenced as "```json" … "```" on lines of its own comes back out unchanged |
| LlmReply.BareBody | src/suggestions/simple_suggestion_engine.py:324-333 | a trimmed body without fences is left as it is |
| LlmReply.LastIndexOf | src/suggestions/simple_suggestion_engine.py:341 | the last position of a character, or -1 when it does not occur |
| LlmReply.BraceSpan | src/suggestions/simple_suggestion_engine.py:341-342 | a span exists exactly when a `{` occurs before the last `}` |
| LlmReply.BraceSpanSpec | src/suggestions/simple_suggestion_engine.py:341-344 | the greedy span opens with the first `{` and closes with the last `}`; without a span no `{` is followed by a `}` |
| LlmReply.ParseReplyOfBody | src/suggestions/simple_suggestion_engine.py:322-336 | a reply that is a body, bare or fenced, decodes as that body |
| LlmReply.ParseReplyFallback | src/suggestions/simple_suggestion_engine.py:335-347 | when the cleaned reply does not decode, the brace span is decoded instead, and without a span the result is None |
| NearDuplicates.NearDuplicateSymmetric | app.py:309-316 | the containment-and-80% test does not depend on which string is the new one |
| NearDuplicates.NearDuplicateBounds | app.py:309-316 | a non-empty string is a near-duplicate of itself; strings whose length ratio is at most 0.8 never are |
| NearDuplicates.KeptSpec | app.py:300-322 | every kept item comes from the input and normalises to more than 30 characters; no two kept items are near-duplicates; an input item long enough is kept or is a near-duplicate of a kept one |
| NearDuplicates.IsNearDuplicateOfSeen | app.py:309-316 | the inner loop, which stops at the first hit, finds a near-duplicate exactly when some seen item is one |
| NearDuplicates.UniqueItems | app.py:300-322 | the de-duplication loop with its seen set keeps exactly those items |
| ResumeEditing.PyIndex | app.py:911-914 | Python indexing succeeds exactly for indices in -n .. n-1, counting a negative index from the end |
| ResumeEditing.SkillPieces | app.py:900 | one trimmed piece per comma-separated part |
| ResumeEditing.AddSkillsPrefix | app.py:901-903 | existing skills keep their place and order |
| ResumeEditing.AddSkillsMembers | app.py:901-903 | after the loop a skill is present exactly when it was before or is a non-empty piece |
| ResumeEditing.AddSkillsDistinct | app.py:901-903 | no duplicate skill is introduced |
| ResumeEditing.SetBulletText | app.py:911-914 | a bullet write keeps the number of entries and of each entry's bullets |
| ResumeEditing.SetBulletTextFrame | app.py:911-914 | a located bullet write changes at most one bullet, and only its text |
| ResumeEditing.SetBulletTextHit | app.py:911-914 | in-range non-negative indices rewrite exactly that bullet's text, keeping its formatting, and nothing else |
| ResumeEditing.SetBulletTextMiss | app.py:911-916 | indices at or beyond the lengths, or below minus the lengths, change nothing and raise nothing |
| ResumeEditing.SetBulletTextNegative | app.py:911-914 | the locator indices -1, -1 pass the guards and rewrite the last bullet of the last entry |
| ResumeEditing.NewText | app.py:894 | the applied text is the edited text when it is non-empty, otherwise the suggested text |
| ResumeEditing.ApplySuggestionFrame | app.py:892-916 | only the slot the section type names can change: a summary edit replaces only the summary, a skill edit only appends, a bullet edit keeps every length, any other type changes nothing |
| ResumeEditing.ApplySkillEdit | app.py:898-903 | a skill edit leaves exactly the old skills plus the non-empty trimmed comma pieces, without introducing duplicates |
| ResumeEditing.BulletLocatorRoundTrip | app.py:905-910 | a locator `experience_<e>_bullet_<b>` parses back to (e, b) |
| ResumeEditing.ResumeRecord.AppendSkills | app.py:900-903 | the loop appends each new non-empty piece to the stored skills and changes nothing else |
| ResumeEditing.ResumeRecord.WriteBullet | app.py:911-914 | the guarded write updates the stored experience as specified and nothing else |
| ResumeEditing.ResumeRecord.WriteLocated | app.py:904-916 | an unparsable locator leaves the record unchanged; a parsed one writes at its indices |
| ResumeEditing.ResumeRecord.ApplySuggestion | app.py:892-916 | the stored résumé becomes the result of applying the suggestion's text to the slot it names |
| ResumeEditing.Next | app.py:750-765 | accept and edit are refused exactly when the status is not pending, reject is always allowed, and the new status is accepted, rejected or edited |
| ResumeEditing.AppliedAtMostOnce | app.py:743-890 | whatever the sequence of requests, a suggestion is applied at most once, only from pending, and never stays pending after it |
| ResumeEditing.SuggestionRecord.constructor | app.py:743-751 | a new suggestion is pending with no edited text |
| ResumeEditing.SuggestionRecord.Accept | app.py:743-784 | accepting succeeds exactly from pending, applies the suggested text and marks it accepted; otherwise nothing changes |
| ResumeEditing.SuggestionRecord.Reject | app.py:786-796 | rejecting is allowed from any state, sets rejected and leaves the résumé alone |
| ResumeEditing.SuggestionRecord.Edit | app.py:847-890 | editing succeeds exactly from pending, stores the edited text as suggested and edited text, applies it and marks it edited; otherwise nothing changes |
| ResumeEditing.DictPutGet | app.py:1038 | a dict assignment overwrites the key's value and leaves every other key's value alone |
| ResumeEditing.DictPutDistinct | app.py:1038 | the keys stay distinct |
| ResumeEditing.ChangeMapSpec | app.py:1034-1038 | the export map holds each locator once; it maps to the edited text of an edited row or the suggested text otherwise, from the LAST applied row carrying it, and is absent when no applied row carries it |
| ResumeEditing.BuildChangeMap | app.py:1034-1038 | the loop builds exactly that map |
| ResumeBuilder.ApplyChangePreserves | src/regeneration/resume_builder.py:255-281 | one change raises exactly on a missing key; otherwise the experience, bullet and education shapes and the personal info are kept and skills only grow |
| ResumeBuilder.ApplyChangesPreserves | src/regeneration/resume_builder.py:246-282 | the whole map raises exactly when some key is missing; otherwise list lengths are kept and skills only grow, in order |
| ResumeBuilder.UnknownKeyIgnored | src/regeneration/resume_builder.py:255-281 | a key that is not `summary` and starts with neither `experience_` nor `skill` changes nothing |
| ResumeBuilder.SkillTextAlreadyPresent | src/regeneration/resume_builder.py:274-276 | a skill change whose whole text is already a skill changes nothing |
| ResumeBuilder.SummarySectionIgnored | src/regeneration/resume_builder.py:256-281 | as written, a change keyed `summary_section` changes nothing |
| ResumeBuilder.SummarySectionApplied | src/regeneration/resume_builder.py:256-257 | corrected, a change keyed `summary_section` replaces the summary, and every other key behaves as written |
| ResumeBuilder.ApplyChangesToData | src/regeneration/resume_builder.py:246-282 | the loop over a fresh copy computes the change map's result, leaving the input résumé untouched |
| ResumeBuilder.NoneStaysNone | src/regeneration/resume_builder.py:255 | once a change has raised, the rest of the map is not applied |
| JdPostprocess.RawTextAfter | app.py:256-257 | the raw text afterwards is present, at least 80% as long as the source, and is the parser's own text whenever that was already non-empty and long enough, the source otherwise |
| JdPostprocess.TitleAfter | app.py:270-280 | the title afterwards is never empty; a real title is kept; a replaced one is either the first line of the raw text (shorter than 100 characters) or "Job Description" |
| JdPostprocess.StrippedLong | app.py:297 | every collected bullet is longer than 20 characters after stripping |
| JdPostprocess.CandidateBulletsLoop | app.py:289-300 | the bullet-collecting loop and its `dict.fromkeys` de-duplication compute the candidate bullets of the three patterns' matches |
| JdPostprocess.MentionsAnyLoop | app.py:326 | the word-by-word `any(...)` loop answers true exactly when some listed word occurs in the text |
| JdPostprocess.CategorizeGrows | app.py:323-336 | categorising only appends to responsibilities and requirements, at most one item per bullet |
| JdPostprocess.CategorizeFrom | app.py:323-336 | every new responsibility is a bullet mentioning an action verb; every new requirement is a bullet |
| JdPostprocess.CategorizeCovers | app.py:323-336 | every bullet longer than 30 characters ends up in one of the two lists |
| JdPostprocess.CategorizeDistinct | app.py:323-336 | lists without duplicates stay without duplicates |
| JdPostprocess.TitleCase | app.py:362 | `str.title()` keeps the length of the word |
| JdPostprocess.JdRecord.constructor | app.py:252 | the record holds the parsed job description's fields |
| JdPostprocess.JdRecord.CategorizeBullets | app.py:323-336 | the categorising loop leaves responsibilities and requirements as the categorising function says and changes nothing else |
| JdPostprocess.JdRecord.AddFallbackSkills | app.py:339-369 | the skill scan appends the distinct skill names not yet required, in order of first match, and changes nothing else |
| JdPostprocess.JdRecord.FillRawAndTitle | app.py:256-280 | raw text and title become what the repair functions say; the lists are unchanged |
| JdPostprocess.JdRecord.RunFallback | app.py:283-369 | the aggressive fallback computes the fallback record of the raw text |
| JdPostprocess.JdRecord.Postprocess | app.py:256-369 | the whole post-processing computes its specification function of the parsed record and the source |
| JdPostprocess.PostprocessSpec | app.py:256-369 | afterwards the raw text is at least 80% of the source, the title is never empty, no existing responsibility, requirement or required skill is lost or reordered, and the fallback runs only when fewer than two of each were extracted |
| JdLlm.TitleOf | src/parsers/jd_parser.py:201 | a missing or falsy title reads as "Job Position"; a truthy one is accepted exactly when it is a string; an accepted title is never empty |
| JdLlm.Strings | src/parsers/jd_parser.py:210-222 | a JSON array is accepted exactly when every element is a string, and then reads as those strings in order |
| JdLlm.StrList | src/parsers/jd_parser.py:210-222 | a missing or falsy list reads as the empty list; an array of strings is always accepted |
| JdLlm.StrArray | src/parsers/jd_parser.py:210-222 | the JSON array written for a list of strings has one string element per item, in order |
| JdLlm.StrListRoundTrip | src/parsers/jd_parser.py:210-222 | a list of strings written as a JSON array reads back as itself |
| JdLlm.TitleRoundTrip | src/parsers/jd_parser.py:201 | a non-empty title written as a JSON string reads back as itself |
| JdLlm.JdFromJsonLists | src/parsers/jd_parser.py:210-217 | each match-focused list and the responsibilities are the reply's array under their own key |
| JdLlm.EmptyObjectJd | src/parsers/jd_parser.py:199-224 | an empty reply object reads as a description titled "Job Position" with every list empty and the whole text kept |
| JdLlm.JdLlmSpec | src/parsers/jd_parser.py:199-224 | a description read from the model has a title, keeps the whole text as raw text, and fills requirements, preferred qualifications, required and preferred skills and keywords from their match-focused counterparts |
| JdLlm.JdLlmFenced | src/parsers/jd_parser.py:185-193 | a reply wrapped in a "```json" fence reads exactly as the bare reply |
| JdLlm.JdLlmNeedsObject | src/parsers/jd_parser.py:181-239 | a reply that does not decode to a JSON object gives no description, so the parser falls back to the pattern rules |
| JdTitle.JdLinesStripped | src/parsers/jd_parser.py:265 | every line the parser works on is stripped and non-empty |
| JdTitle.Candidate | src/parsers/jd_parser.py:290-317 | one of the first ten lines is taken exactly when it is not skipped and either holds a title word in at most eight words or is the short, greeting-free first line; a taken line is stripped, at most eight words and 80 characters |
| JdTitle.FirstCandidateLoop | src/parsers/jd_parser.py:290-317 | the loop over the first ten lines stops at the first candidate, as the first-hit search specifies |
| JdTitle.FirstCandidateBounds | src/parsers/jd_parser.py:290-317 | a candidate taken from stripped lines is stripped, at most eight words and 80 characters |
| JdTitle.FirstCandidateFirst | src/parsers/jd_parser.py:290-317 | when the first line is a candidate it is the title chosen |
| JdTitle.LabelEnd | src/parsers/jd_parser.py:323 | a label ("position", "role", "title", "job", "opening") followed by ":" or "-" is found at a position exactly when one of the labels is there, and the title text starts right after its separator |
| JdTitle.TitleAfter | src/parsers/jd_parser.py:325-326 | the text after a label is accepted stripped, at most eight words and shorter than 80 characters |
| JdTitle.LabelTitle | src/parsers/jd_parser.py:323-326 | a labelled title is stripped, at most eight words and shorter than 80 characters |
| JdTitle.LabelTitleLeftmost | src/parsers/jd_parser.py:323 | the title is read after the leftmost label, as `re.search` finds it |
| JdTitle.LabelTitleNone | src/parsers/jd_parser.py:323-324 | a line without a label followed by text gives no title |
| JdTitle.LastResort | src/parsers/jd_parser.py:332-338 | a last-resort title is a stripped line of at most six words, shorter than 60 characters, and mentions no greeting |
| JdTitle.ChooseTitle | src/parsers/jd_parser.py:320-343 | the title is never empty; it is "Job Position" or one of the three stages' answers, and the first stage's answer wins when it is usable |
| JdTitle.InferTitle | src/parsers/jd_parser.py:271-343 | a usable title-like line among the first ten is the title |
| JdTitle.InferTitleLoop | src/parsers/jd_parser.py:271-343 | the three loops compute the inferred title |
| JdTitle.InferTitleSpec | src/parsers/jd_parser.py:271-343 | the inferred title is never empty, and from stripped lines it is "Job Position" or a stripped text of at most eight words and 80 characters |
| JdTitle.ChooseTitleSized | src/parsers/jd_parser.py:320-343 | when every stage's answer is title-sized, so is the chosen title unless it is the default |
| JdParser.TopUpSpec | src/parsers/jd_parser.py:359-371 | a list of three or more is left alone; nothing found is lost and a duplicate-free list keeps its order in front; everything added is an accepted bullet, at most ten of them; a topped-up list has no duplicates |
| JdParser.TopUpStep | src/parsers/jd_parser.py:359-371 | the fallback step computes the top-up of the cleaned bullets of the raw text |
| JdParser.DutiesFoundShape | src/parsers/jd_parser.py:346-357 | every responsibility found under a heading or by the duty patterns is stripped and longer than 10 characters |
| JdParser.ResponsibilitiesSpec | src/parsers/jd_parser.py:346-371 | every responsibility is stripped and longer than 10 characters, and it was found under a heading or by the duty patterns, or it is a cleaned bullet with an action verb that is not already a requirement |
| JdParser.DutiesStep | src/parsers/jd_parser.py:346-357 | the heading search falls back to the duty patterns only when it finds nothing |
| JdParser.ResponsibilitiesStep | src/parsers/jd_parser.py:346-371 | the responsibility steps compute the responsibilities function |
| JdParser.RequirementsFoundShape | src/parsers/jd_parser.py:374-383 | every requirement found under a heading or as a bullet with a requirement word is stripped and longer than 15 characters |
| JdParser.RequirementsSpec | src/parsers/jd_parser.py:374-396 | every requirement is stripped and longer than 15 characters, and it was found under a heading, as a bullet with a requirement word, or is a cleaned bullet with a requirement cue |
| JdParser.RequirementsFoundStep | src/parsers/jd_parser.py:374-383 | the heading search falls back to the keyword bullets only when it finds nothing |
| JdParser.RequirementsStep | src/parsers/jd_parser.py:374-396 | the requirement steps compute the requirements function |
| JdParser.SortedNoDuplicates | src/parsers/jd_parser.py:685 | `sorted(set(...))` has no duplicates |
| JdParser.SkillsOfOk | src/parsers/jd_parser.py:599-685 | the skill scan yields two duplicate-free lists of vocabulary names |
| JdParser.SkillsFirstOk | src/parsers/jd_parser.py:405-420 | the first skill search, over the skills section, the whole text or the requirements, yields two duplicate-free lists of vocabulary names |
| JdParser.SkillsTopUpSpec | src/parsers/jd_parser.py:423-434 | merging the bullet skills keeps both lists duplicate-free and made of vocabulary names, keeps what was there in front, and leaves three or more required skills alone |
| JdParser.SkillsSpec | src/parsers/jd_parser.py:405-434 | both skill lists are duplicate-free and hold only vocabulary names; when the first search finds three required skills or more nothing else is added |
| JdParser.SkillsStep | src/parsers/jd_parser.py:405-434 | the skill steps, with the merge written as its two loops, compute the skills function |
| JdParser.ExtractKeywords | src/parsers/jd_parser.py:687-708 | the keywords are at most fifty distinct members of the keyword pool |
| JdParser.KeywordsCover | src/parsers/jd_parser.py:708 | at most fifty keywords, and every pool member when the pool has no more than fifty distinct ones |
| JdParser.KeywordPoolCapitals | src/parsers/jd_parser.py:705-706 | a capitalised phrase is in the pool exactly when it is longer than three characters and not one of the five stop words, or when another pattern matched it |
| JdParser.TitleStep | src/parsers/jd_parser.py:271-343 | the title is inferred only when the description has none |
| JdParser.RoleTitleSpec | src/parsers/jd_parser.py:271-343 | the rule-based title is never empty: a given title is kept, and an inferred one is "Job Position" or a stripped text of at most eight words and 80 characters |
| JdParser.StartJdSpec | src/parsers/jd_parser.py:258-263 | the raw text is the parsed text unless the given description already had a non-empty one, and every other field is the given description's or empty |
| JdParser.StartJdKeepsText | src/parsers/jd_parser.py:258-263 | the starting description of a text that is not blank has a non-empty raw text |
| JdParser.RegexJdTitled | src/parsers/jd_parser.py:271-343 | a rule-based description always has a title |
| JdParser.RegexJdKeepsText | src/parsers/jd_parser.py:258-263 | a rule-based description of a text that is not blank keeps a non-empty raw text |
| JdParser.RegexParse | src/parsers/jd_parser.py:258-439 | the rule-based steps, each writing one field in the parser's order, compute the rule-based description, with keywords drawn from the pool |
| JdParser.RuleBased | src/parsers/jd_parser.py:265-268 | a text without a non-blank line is refused with "No content found in job description"; otherwise the rule-based description is returned |
| JdParser.NoContentUnreachable | src/parsers/jd_parser.py:247-268 | a text has a non-blank line exactly when it is not blank, so the second refusal can never be raised |
| JdParser.ParseText | src/parsers/jd_parser.py:241-439 | a blank text is refused with "Job description text is empty"; a usable reply from the model is returned as it is; otherwise the rule-based description is returned |
| JdParser.ParseJdText | src/parsers/jd_parser.py:241-439 | with the parser's own word lists, a text that is not blank and gets no usable reply always yields the rule-based description |
| JdSections.LeadingDigits | src/parsers/jd_parser.py:485 | the count of leading digits is exactly the length of the run of digits the text starts with |
| JdSections.Collapse | src/parsers/jd_parser.py:489 | after collapsing whitespace the text is on one line, has no two spaces in a row, keeps a non-space first character, and is empty exactly when the input was |
| JdSections.TrailingDots | src/parsers/jd_parser.py:491 | the count of final dots is exactly the length of the run of dots the text ends with |
| JdSections.DropEllipsis | src/parsers/jd_parser.py:491 | dropping the ellipsis leaves a prefix; what is dropped is three or more dots, and what is left does not end in a dot |
| JdSections.OneLineCleaned | src/parsers/jd_parser.py:487-491 | collapsing, dropping the ellipsis and stripping give a text on one line |
| JdSections.SectionItem | src/parsers/jd_parser.py:482-496 | a kept section item is stripped, on one line, longer than 15 characters, and ends a sentence or is longer than 40 characters |
| JdSections.ItemsAtShape | src/parsers/jd_parser.py:459-496 | every item of one keyword and pattern has the section-item shape |
| JdSections.FirstYieldEmpty | src/parsers/jd_parser.py:450-502 | the search over keywords and patterns yields nothing exactly when every keyword and pattern yields nothing |
| JdSections.FirstYieldOne | src/parsers/jd_parser.py:450-502 | a result of the search is the item list of one keyword and one of the three patterns |
| JdSections.ExtractSectionEmpty | src/parsers/jd_parser.py:441-504 | a section is empty exactly when no keyword and pattern yields an item |
| JdSections.ExtractSectionOne | src/parsers/jd_parser.py:441-504 | a non-empty section is the item list of one keyword and pattern |
| JdSections.ExtractSectionShape | src/parsers/jd_parser.py:441-504 | every section item is stripped, on one line, longer than 15 characters, and ends a sentence or is longer than 40 characters |
| JdSections.SectionText | src/parsers/jd_parser.py:459-464 | with `return_text` the stripped body of the first keyword and pattern that match is returned, and nothing exactly when none matches |
| JdSections.SectionItemsLoop | src/parsers/jd_parser.py:468-496 | the loop body computes the items of one keyword and pattern |
| JdSections.FirstYieldLoop | src/parsers/jd_parser.py:450-502 | the two loops stop at the first keyword and pattern that yield items |
| JdSections.ExtractSectionLoop | src/parsers/jd_parser.py:441-504 | the loops compute the section function |
| JdSections.DutyPiece | src/parsers/jd_parser.py:516-518 | a kept piece is stripped, longer than 10 characters, and made of the match's characters |
| JdSections.SplitDuty | src/parsers/jd_parser.py:514 | no piece of the split holds a newline, '•', '-' or '*' |
| JdSections.Separated | src/parsers/jd_parser.py:514 | after the separators are turned into newlines no '•', '-' or '*' is left |
| JdSections.DutyItemsShape | src/parsers/jd_parser.py:512-518 | every item of one match is stripped, longer than 10 characters and holds no separator |
| JdSections.FirstDutyItemsShape | src/parsers/jd_parser.py:509-522 | every item of the first match with items has that shape |
| JdSections.ExtractByPatternsSpec | src/parsers/jd_parser.py:506-523 | at most ten items, each stripped, longer than 10 characters and holding no separator |
| JdSections.ExtractByPatternsLoop | src/parsers/jd_parser.py:506-523 | the loops stop at the first match with items and keep ten |
| JdSections.ExtractBulletPointsSpec | src/parsers/jd_parser.py:525-548 | at most fifteen bullets, each stripped, longer than 15 characters, and mentioning a keyword when keywords are given |
| JdSections.ExtractBulletPointsKeeps | src/parsers/jd_parser.py:537-546 | a long enough bullet that mentions a keyword is kept when the cap is not reached |
| JdSections.ExtractBulletPointsLoop | src/parsers/jd_parser.py:525-548 | the loop computes the bullet-points function |
| JdSections.AllBullet | src/parsers/jd_parser.py:562-573 | a kept bullet is stripped, on one line and longer than 30 characters |
| JdSections.ApartTake | src/parsers/jd_parser.py:597 | keeping the first thirty of a list with no near-duplicates keeps it free of them |
| JdSections.ExtractAllBulletPointsSpec | src/parsers/jd_parser.py:550-597 | at most thirty items, each a cleaned bullet of the text, stripped, on one line and longer than 30 characters, and no item a near-duplicate of an earlier one |
| JdSections.ExtractAllBulletPointsLoop | src/parsers/jd_parser.py:550-597 | the cleaning and de-duplication loops compute the all-bullets function |
| JdSkills.InsertName | src/parsers/jd_parser.py:685 | inserting a name into a sorted list gives a list holding exactly that name and the list's own names |
| JdSkills.InsertNameSorted | src/parsers/jd_parser.py:685 | inserting into a strictly sorted list keeps it strictly sorted |
| JdSkills.SortedSetSpec | src/parsers/jd_parser.py:685 | `sorted(list(set(xs)))` is strictly increasing and holds exactly the names of `xs` |
| JdSkills.SortedUnique | src/parsers/jd_parser.py:685 | two strictly sorted lists of the same names are equal, so the set's iteration order does not matter |
| JdSkills.TokenAtIsWordAt | src/parsers/jd_parser.py:632-633 | for a name that begins and ends with a word character the `\b` test and the not-touching-a-word-character test agree at every position |
| JdSkills.TokenMatchesWord | src/parsers/jd_parser.py:632-633 | for such a name the two whole-word searches agree |
| JdSkills.CppNeedsWordAfter | src/parsers/jd_parser.py:632-633 | the `\b`-wrapped pattern finds "c++" only where a word character follows it |
| JdSkills.CppMissedByWordPattern | src/parsers/jd_parser.py:632-633 | the pattern as written does not find "c++" in "c++ dev" |
| JdSkills.CppFoundAsToken | src/parsers/jd_parser.py:632-633 | the intended whole-word test finds "c++" in "c++ dev" |
| JdSkills.LowerWindow | src/parsers/jd_parser.py:710-717 | a window around an occurrence in the lower-cased text is a piece of the text that holds the keyword once lower-cased |
| JdSkills.ContextAround | src/parsers/jd_parser.py:710-717 | the context is empty when the keyword does not occur, case-insensitively; otherwise it is a piece of the text that holds the keyword and is at most twice `chars` longer than it |
| JdSkills.TitledParts | src/parsers/jd_parser.py:657 | each part of a "/"-separated skill is stripped and title-cased, part by part |
| JdSkills.TitleCaseSameLetters | src/parsers/jd_parser.py:660 | `str.title()` only changes the case of letters |
| JdSkills.SkillTitleSameLetters | src/parsers/jd_parser.py:650-660 | apart from "ml", a skill without a "/" is filed under a name that differs from it only in case |
| JdSkills.VocabPassFrom | src/parsers/jd_parser.py:629-667 | every name in either list is the title of a found skill whose context selects that list |
| JdSkills.VocabPassCovers | src/parsers/jd_parser.py:629-667 | every found skill's title is in the list its context selects: preferred when a preferred cue and no required cue surround it, required otherwise |
| JdSkills.VocabPassDistinct | src/parsers/jd_parser.py:663-667 | both lists of the vocabulary pass are free of duplicates |
| JdSkills.BulletPassGrows | src/parsers/jd_parser.py:670-682 | the bullet pass only appends, keeps the two lists jointly free of duplicates, and every name it adds is the plain title of a vocabulary skill |
| JdSkills.ExtractSkillsSpec | src/parsers/jd_parser.py:599-685 | both lists are sorted and free of duplicates, hold only names of vocabulary skills, and every skill found in the text is in the list its context selects |
| JdSkills.VocabLoop | src/parsers/jd_parser.py:629-667 | the vocabulary loop computes the vocabulary pass |
| JdSkills.BulletSkillsLoop | src/parsers/jd_parser.py:673-682 | the inner loop over the vocabulary for one bullet computes the bullet step |
| JdSkills.ExtractSkillsLoop | src/parsers/jd_parser.py:599-685 | the two loops and the sorting compute the skill lists |
| ResumeParser.JoinWrappedLines | src/parsers/resume_parser.py:253-299 | the joined text is the logical lines, one per line |
| ResumeParser.JoinUnits | src/parsers/resume_parser.py:259-297 | the loop over the physical lines computes the logical lines |
| ResumeParser.Feed | src/parsers/resume_parser.py:260-294 | the loop body computes one joining step |
| ResumeParser.JoinStepGood | src/parsers/resume_parser.py:260-294 | every joining step keeps every emitted line and the line being built stripped and non-empty |
| ResumeParser.JoinedLines | src/parsers/resume_parser.py:253-299 | no emitted line is empty: the output is empty when there are no logical lines, and otherwise its lines are exactly the logical lines, each non-empty and stripped |
| ResumeParser.BlankLineSeparates | src/parsers/resume_parser.py:261-265 | a blank line closes the line being built: what precedes it and what follows it are joined independently |
| ResumeParser.NewItemSeparates | src/parsers/resume_parser.py:268-283 | a new-item line always starts a logical line: what precedes it is joined independently of it and what follows |
| ResumeParser.Continuation | src/parsers/resume_parser.py:284-294 | a line that is not a new item is appended, after a space, to the line before it exactly when that line is a bullet or does not end in '.', ':', '!' or '?'; otherwise it starts a line of its own |
| ResumeParser.UnitsKeepText | src/parsers/resume_parser.py:253-299 | joining loses, adds and reorders no text: only whitespace changes |
| ResumeParser.FirstSection | src/parsers/resume_parser.py:395-397 | the first section from a given one on whose keywords occur, or none |
| ResumeParser.IdentifySection | src/parsers/resume_parser.py:392-398 | a line names no section exactly when no keyword occurs in it; otherwise it names the first section, in dictionary order, one of whose keywords occurs |
| ResumeParser.GroupSections | src/parsers/resume_parser.py:327-356 | the paragraph loop collects the section texts |
| ResumeParser.ReadParagraph | src/parsers/resume_parser.py:328-353 | the loop body computes one grouping step |
| ResumeParser.SectionsSpec | src/parsers/resume_parser.py:327-356 | only the five section names are keys, and no section text is empty |
| ResumeParser.NoHeadingNoSections | src/parsers/resume_parser.py:327-356 | text before the first heading belongs to no section, so paragraphs without a heading give no sections |
| ResumeParser.NonBlankLines | src/parsers/resume_parser.py:366 | the kept lines are no more than the lines, each non-empty with no whitespace at either end |
| ResumeParser.NonBlankText | src/parsers/resume_parser.py:363-369 | a text that is not blank has a non-blank line |
| ResumeParser.BlankText | src/parsers/resume_parser.py:363-369 | a blank text has no non-blank line |
| ResumeParser.NonBlankLinesOfUnits | src/parsers/resume_parser.py:366 | lines that are already stripped and non-empty are kept as they are |
| ResumeParser.SectionText | src/parsers/resume_parser.py:481-496 | a section's text is the DOCX section when there is one; otherwise there is one exactly when a pattern found a non-empty text |
| ResumeParser.FirstFound | src/parsers/resume_parser.py:416-432 | the first match of the first pattern that matches at all, and none exactly when no pattern matches |
| ResumeParser.FirstPlace | src/parsers/resume_parser.py:443-446 | the first match that names no university, college or company; none exactly when every match names one |
| ResumeParser.LocationOf | src/parsers/resume_parser.py:439-447 | a location names no institution or company and is a match of one of the patterns |
| ResumeParser.LocationNotRetried | src/parsers/resume_parser.py:439-447 | when every match of the first matching pattern names an institution, the later patterns are not consulted |
| ResumeParser.NameOf | src/parsers/resume_parser.py:450-455 | a name is the stripped first header line, of at most four words, without '@' or "linkedin" in any case, and made of capitalised words or all capitals |
| ResumeParser.OneWordName | src/parsers/resume_parser.py:453-455 | a one-word name is accepted only in capitals |
| ResumeParser.FindFirst | src/parsers/resume_parser.py:416-432 | the pattern loop for phones and LinkedIn addresses finds the first match of the first matching pattern |
| ResumeParser.FindPlace | src/parsers/resume_parser.py:443-446 | the inner loop finds the first match that names no institution |
| ResumeParser.FindLocation | src/parsers/resume_parser.py:439-447 | the location loop stops at the first pattern with matches |
| ResumeParser.ExtractPersonalInfo | src/parsers/resume_parser.py:400-457 | the personal information is the e-mail address, phone, LinkedIn address, location and name the rules give |
| ResumeParser.FirstShort | src/parsers/resume_parser.py:468-473 | the first candidate shorter than 2000 characters, and none exactly when every candidate is longer |
| ResumeParser.SummaryOf | src/parsers/resume_parser.py:459-475 | without a DOCX summary, a summary is a pattern match shorter than 2000 characters |
| ResumeParser.DropBullet | src/parsers/resume_parser.py:598 | dropping the bullet marker gives no longer a text made of the line's characters |
| ResumeParser.SegmentStepRule | src/parsers/resume_parser.py:503-521 | the "not a bullet and long" test never changes the outcome: every dated line opens an entry and every other non-blank line joins the current one |
| ResumeParser.SegmentsSpec | src/parsers/resume_parser.py:498-524 | the entries partition the non-blank lines in order: each entry is a non-empty run of stripped lines, and every entry after the first starts with a dated line |
| ResumeParser.SegmentLines | src/parsers/resume_parser.py:502-524 | the entry-splitting loop computes the entries |
| ResumeParser.Segment | src/parsers/resume_parser.py:503-521 | the loop body computes one splitting step |
| ResumeParser.BulletsOf | src/parsers/resume_parser.py:552-557 | the bullets of an entry are no more than its lines, each longer than five characters and without formatting |
| ResumeParser.BeforePipeSpec | src/parsers/resume_parser.py:540 | the company cut at a vertical bar holds no vertical bar and is made of the line's characters |
| ResumeParser.CompanyAndTitle | src/parsers/resume_parser.py:534-544 | when there is one line or the second is a bullet, company and title are the first line; otherwise the company is the first line, the part before its vertical bar, or the second line |
| ResumeParser.EntryOf | src/parsers/resume_parser.py:526-566 | an entry is kept exactly when it has a bullet, and then its bullets are the bullet lines of the entry |
| ResumeParser.EntryOfSegment | src/parsers/resume_parser.py:514-530 | joining an entry's lines and splitting them again gives the entry back, so its own lines decide it |
| ResumeParser.EntriesSpec | src/parsers/resume_parser.py:526-566 | every entry kept has a bullet, and every bullet more than five characters |
| ResumeParser.ExperienceSpec | src/parsers/resume_parser.py:477-568 | every experience entry has a bullet, there are no more entries than non-blank lines, and without an experience section there are none |
| ResumeParser.BuildEntries | src/parsers/resume_parser.py:526-566 | the entry-building loop computes the entries function |
| ResumeParser.ExtractExperience | src/parsers/resume_parser.py:477-568 | the method computes the experience function |
| ResumeParser.StripAll | src/parsers/resume_parser.py:612 | each part is stripped, part by part |
| ResumeParser.TrimCommaStart | src/parsers/resume_parser.py:624 | trimming leading commas leaves a suffix that does not start with ',' |
| ResumeParser.TrimCommaEnd | src/parsers/resume_parser.py:624 | trimming trailing commas leaves a prefix that does not end with ',' |
| ResumeParser.FirstInstitution | src/parsers/resume_parser.py:617-620 | the first part naming a school, stripped; none exactly when no part names one |
| ResumeParser.EducationLine | src/parsers/resume_parser.py:593-631 | an education line has five or more characters, is not another heading and mentions a degree word; its degree is its first comma-separated part, its school is not empty, and its date is the date pattern's |
| ResumeParser.EducationFromSpec | src/parsers/resume_parser.py:593-633 | no more entries than lines, every entry names a school (or "Unknown") and no degree holds a comma |
| ResumeParser.EducationNeedsDegree | src/parsers/resume_parser.py:606-608 | a line without a degree word adds no entry |
| ResumeParser.ExtractEducation | src/parsers/resume_parser.py:570-633 | the method computes the education function |
| ResumeParser.EducationLines | src/parsers/resume_parser.py:593-631 | the line loop computes the education entries |
| ResumeParser.DropCertLabel | src/parsers/resume_parser.py:678 | dropping a "Certifications:" label leaves a suffix of the item |
| ResumeParser.SemicolonsToCommas | src/parsers/resume_parser.py:676 | every ';' becomes ',' and nothing else changes, so splitting on ',' splits on both |
| ResumeParser.ItemSkill | src/parsers/resume_parser.py:677-685 | a kept item has 2 to 49 characters, no certification word and no school or degree word, and is made of the item's characters |
| ResumeParser.ItemSkills | src/parsers/resume_parser.py:676-685 | every skill of a line is a good skill, no more than the items |
| ResumeParser.LineSkills | src/parsers/resume_parser.py:660-685 | every skill of a line is a good skill, and an education or certification line gives none |
| ResumeParser.SkillsSpec | src/parsers/resume_parser.py:635-687 | every skill has 2 to 49 characters, holds no ',' or ';', no certification word and none of University, College, Master, Bachelor or Expected |
| ResumeParser.ExtractSkills | src/parsers/resume_parser.py:635-687 | the method computes the skills function |
| ResumeParser.SkillLines | src/parsers/resume_parser.py:660-685 | the line loop computes the skills |
| ResumeParser.ReadCertLine | src/parsers/resume_parser.py:712-722 | a kept certification has 4 to 149 characters and is not a heading |
| ResumeParser.CertificationsFromSpec | src/parsers/resume_parser.py:708-724 | no more certifications than lines, each with 4 to 149 characters and not a heading |
| ResumeParser.CertificationsStopAtHeading | src/parsers/resume_parser.py:718-719 | nothing after a heading line counts, whatever it holds |
| ResumeParser.ExtractCertifications | src/parsers/resume_parser.py:689-724 | the method computes the certifications function |
| ResumeParser.CertificationLines | src/parsers/resume_parser.py:711-722 | the line loop, which stops at the next heading, computes the certifications |
| ResumeParser.MergeCertificationsSpec | src/parsers/resume_parser.py:378 | the skills come first, unchanged, and a certification is added unless it is already a skill |
| ResumeParser.ParseText | src/parsers/resume_parser.py:361-390 | the method computes the text parser's result |
| ResumeParser.ParseTextEmpty | src/parsers/resume_parser.py:363-364 | the parser fails with "Resume text is empty." exactly when the text is blank |
| ResumeParser.ParseTextNeverNoContent | src/parsers/resume_parser.py:366-369 | "No content found in resume." is never raised |
| ResumeParser.ParseTextNothingFound | src/parsers/resume_parser.py:380-381 | the parser fails with "Could not extract meaningful content" exactly when the text is not blank and no name, e-mail address, experience entry or education entry was found |
| ResumeParser.ParseTextSuccess | src/parsers/resume_parser.py:371-390 | a parsed résumé has its skills first and then the certifications not already among them, no formatting map, a bullet in every experience entry and a school in every education entry |
| ResumeFiles.InkEmptyIffBlank | src/parsers/resume_parser.py:77 | a text is blank exactly when it has no non-whitespace character |
| ResumeFiles.InkJoin | src/parsers/resume_parser.py:75 | joining with a blank separator keeps the non-whitespace characters of the pieces, in order |
| ResumeFiles.InkFlattenBlank | src/parsers/resume_parser.py:75 | the pieces have no non-whitespace character exactly when each of them is blank |
| ResumeFiles.WrappedStaysNonBlank | src/parsers/resume_parser.py:96-97 | rejoining the wrapped lines of a text that is not blank gives a text that is not blank |
| ResumeFiles.PageTextsSpec | src/parsers/resume_parser.py:66-73 | no more page texts than pages, each non-empty and the text of a page |
| ResumeFiles.ParsePdf | src/parsers/resume_parser.py:63-102 | the method computes the PDF reader's result |
| ResumeFiles.ParsePdfErrors | src/parsers/resume_parser.py:75-98 | a PDF is refused as empty exactly when its page texts are blank; the only other refusal is finding nothing meaningful, since the rejoined text of a non-blank PDF is never blank |
| ResumeFiles.ParsePdfIgnoresReply | src/parsers/resume_parser.py:85-91 | as written the model's reply never changes a PDF's result, because the language-model path gives nothing; a parsed PDF has an empty formatting map |
| ResumeFiles.PdfSkipsEmptyPages | src/parsers/resume_parser.py:69-73 | pages without text change nothing |
| ResumeFiles.DocumentTextBlank | src/parsers/resume_parser.py:309 | the document text is blank exactly when every paragraph is |
| ResumeFiles.InkKept | src/parsers/resume_parser.py:309 | the kept paragraphs have no non-whitespace character exactly when every paragraph is blank |
| ResumeFiles.ParagraphKeyInjective | src/parsers/resume_parser.py:340 | two paragraphs never share a "para_i" key |
| ResumeFiles.KeyedAt | src/parsers/resume_parser.py:327-350 | paragraph `i` is under its key exactly when it is selected, with its stripped text |
| ResumeFiles.FormattingMapSpec | src/parsers/resume_parser.py:327-350 | the formatting map holds exactly the paragraphs that are neither blank nor headings, each under its own key with its stripped text |
| ResumeFiles.KeyedKeys | src/parsers/resume_parser.py:340 | every key of the map is the key of some paragraph |
| ResumeFiles.RecordFormatting | src/parsers/resume_parser.py:327-350 | the paragraph loop computes the formatting map |
| ResumeFiles.ParseDocx | src/parsers/resume_parser.py:301-359 | the method computes the document reader's result |
| ResumeFiles.ParseDocxErrors | src/parsers/resume_parser.py:309-358 | a document is refused as empty exactly when all its paragraphs are blank, and otherwise only for finding nothing meaningful |
| ResumeFiles.ParseDocxIgnoresReply | src/parsers/resume_parser.py:310-358 | as written the model's reply never changes a document's result, and a parsed document always carries its paragraphs' formatting map |
| ResumeFiles.AfterLast | src/parsers/resume_parser.py:39-40 | nothing after the last occurrence of a character is that character |
| ResumeFiles.FileName | src/parsers/resume_parser.py:39 | the file name is the end of the path after its last '/' |
| ResumeFiles.Suffix | src/parsers/resume_parser.py:40 | the suffix is empty or starts at the name's last '.', and it is non-empty exactly when that dot is neither the first nor the last character |
| ResumeFiles.Parse | src/parsers/resume_parser.py:29-61 | the method computes the reader's result for the file's extension |
| ResumeFiles.ParseErrors | src/parsers/resume_parser.py:29-61 | every refusal names its cause: an extension other than ".pdf", ".docx" and ".doc", an empty PDF, an empty document, or nothing meaningful found |
| ResumeFiles.NoExtensionRefused | src/parsers/resume_parser.py:40-48 | a file with no extension is refused, naming an empty extension |
| ResumeLlm.UnfenceBare | src/parsers/resume_parser.py:165-170 | a reply without a fence is only stripped |
| ResumeLlm.UnfenceRoundTrip | src/parsers/resume_parser.py:168-170 | a non-empty body fenced as "```json" … "```" on lines of its own comes back out unchanged |
| ResumeLlm.OptText | src/parsers/resume_parser.py:176-180 | an optional text field reads as absent exactly when it is JSON null or missing, and as a text exactly when it is a string |
| ResumeLlm.ReqText | src/parsers/resume_parser.py:193-206 | a required text field is accepted exactly when it is a string, and reads as that string |
| ResumeLlm.LlmBulletsSpec | src/parsers/resume_parser.py:187-189 | no more bullets than items, each non-empty and stripped |
| ResumeLlm.LlmExperiences | src/parsers/resume_parser.py:185-199 | no more experience entries than records |
| ResumeLlm.LlmExperiencesSpec | src/parsers/resume_parser.py:185-199 | every experience entry read has a bullet, and every bullet is non-empty and stripped |
| ResumeLlm.LlmEducations | src/parsers/resume_parser.py:203-210 | one education entry per record |
| ResumeLlm.AfterLabelPlural | src/parsers/resume_parser.py:227 | a label in any case, with a plural "s" and ": ", is found in front of an item |
| ResumeLlm.NotLabel | src/parsers/resume_parser.py:227 | text that starts with another letter is not that label |
| ResumeLlm.DropLabelSkills | src/parsers/resume_parser.py:227 | "Skills: " in front of an item, in any case, is dropped |
| ResumeLlm.DropLabelCertifications | src/parsers/resume_parser.py:227 | "Certifications: " in front of an item, in any case, is dropped |
| ResumeLlm.DropLabelTechnical | src/parsers/resume_parser.py:227 | "Technical Skills: " in front of an item, in any case, is dropped |
| ResumeLlm.SkillPiecesSpec | src/parsers/resume_parser.py:228-232 | every piece of an item is non-empty and holds no comma |
| ResumeLlm.FlattenSkillsSpec | src/parsers/resume_parser.py:221-235 | the flattened skills have no duplicates, and each is non-empty and free of commas |
| ResumeLlm.FlattenSkillsLoop | src/parsers/resume_parser.py:221-235 | the skills loop computes the flattened skills |
| ResumeLlm.LlmResumeSpec | src/parsers/resume_parser.py:165-247 | a résumé read from the model has a bullet in every experience entry, non-empty stripped bullets, skills without duplicates, each non-empty and free of commas, and no formatting map |
| ResumeLlm.LlmResumeNeedsObject | src/parsers/resume_parser.py:172-251 | a reply that is not a JSON object gives no résumé |
| ResumeLlm.EmptyObjectResume | src/parsers/resume_parser.py:175-247 | the empty object reads as a résumé with every field at its default |
| ResumeLlm.LlmResumeAsWritten | src/parsers/resume_parser.py:156-251 | as written, the path gives no résumé whatever the reply |
| ResumeLlm.LlmPathIsDead | src/config.py:63 | the empty object reads as an empty résumé on the intended path but gives nothing as written, because the chat helper already returns the reply text |
| Schemas.BulletTexts | src/models/schemas.py:13-23 | the bullet texts of one entry, one per bullet, in order |
| Schemas.BulletInAllBulletTexts | src/models/schemas.py:13-23 | a bullet of any entry appears among the flattened bullet texts |
| Schemas.AllBulletTextsFrom | src/models/schemas.py:13-23 | every flattened bullet text is the text of some entry's bullet |
| SuggestionEngine.AppendSkillSuggestions | src/suggestions/suggestion_engine.py:427-470 | each of the two loops appends one skill suggestion per skill, in order, after the suggestions already made |
| Sorting.Insert | src/jobs/job_scraper.py:336 | inserting adds exactly the element: one longer, the same multiset plus it |
| Sorting.SortBySpec | src/jobs/job_scraper.py:336 | `list.sort(key=...)` leaves the list ordered by key and a permutation of itself |
| Sorting.SortByStable | src/jobs/linkedin_scraper.py:309 | the sort is stable: elements with equal keys keep their relative order |
| Sorting.SliceTo | src/suggestions/suggestion_engine.py:71 | Python's `s[:n]` is a prefix of `s`, of length `n` clipped to the list for `n >= 0`, and `n` elements short of the list for a negative `n` |
| Sorting.SortedSliceSpec | src/suggestions/suggestion_engine.py:68-71 | the first `n` of the sorted list are ordered by key, at most `n`, drawn from the list, all of it when `n` reaches its length, and every element that sorts strictly before a returned one is returned too |
| Tokens.WordRuns | src/jobs/job_scraper.py:430 | every match of a whole-word pattern is a non-empty run of word characters |
| Tokens.WordRunsSeparated | src/jobs/linkedin_scraper.py:351 | the runs of two texts separated by a non-word character are the runs of each side |
| Tokens.WordRunsOfWord | src/jobs/linkedin_scraper.py:351 | a text of word characters only is a single run |
| Tokens.CapitalRuns | src/jobs/job_scraper.py:440 | every match of `[A-Z][a-zA-Z]+` has at least two characters, starts with a capital and is all letters |
| Tokens.CapitalRunsNoCapital | src/jobs/job_scraper.py:440 | a text without capitals has no match |

## Left out

- Web layer of `app.py`: the routes, exception handlers, CORS, file uploads, database sessions and the inline schema migration are persistence and I/O. Only the edit, status, export-map and `parse_jd` logic is modelled.
- `src/models/database.py` and `migrate_database.py` are not part of this model. They are ORM and migration code.
- The chat-completion and embedding calls of `src/config.py` are parameters. A reply is `Option<string>`, with `None` when the call raises, and an embedding list is a sequence of an abstract vector type.
- `json.loads` is the parameter `decode: string -> Option<Json>`. Only the fence stripping and the `{...}` span fallback around it are written out.
- Cosine similarity and `np.mean` are not modelled as floating point. Similarity is a real-valued function parameter, the mean is the exact mean over `real`, and Python float rounding is not modelled anywhere.
- PDF and Word reading, and the run-level `formatting_map`, are not modelled. The page texts and paragraph texts are parameters, and `formatting` stays an opaque optional value.
- The rendering part of `src/regeneration/resume_builder.py` is not modelled, because it draws through reportlab and python-docx objects. Only `_apply_changes_to_data` is.
- JD fetching (`_parse_url`, `_parse_html`, `_parse_linkedin`, `_parse_generic`) is not modelled. It is network access and HTML parsing.
- Scraper plumbing is not modelled: HTTP calls, the sqlite cache and API-usage log, the inserts of the job-API `_process_results`, `get_cached_jobs`, and the mark/hide/update methods. The LinkedIn result filter is modelled on the decoded result list.
- `_is_job_title` of the job-API scraper is not modelled. It serves only that scraper's `_process_results`, which is not modelled.
- Regular expressions that are not written out as small recognisers are parameters: `JdPatterns`, `Headings`, and the pattern records of the résumé parser. `\s`, `\d`, `\w` and `\b` are taken over ASCII.
- Lower-casing and title-casing are ASCII only. Unicode case mapping is not modelled.
- `sorted` on strings is code-point lexicographic order.
- Prompt text is not modelled. The long f-string prompt bodies, the `text[:8000]` cut before a model call, uuid generation and console printing are left out. Which items are selected for a prompt, and how many, is modelled.
- `str(resume_data)` in the LinkedIn matcher is a text parameter. Python's repr of the record is not modelled.
- LinkedIn salary and country fields and JSON `null` values in the search results are not modelled. Only the fields the filter and the matcher read are.
- `JdParser.ExtractKeywords` does not state which fifty keywords are kept when there are more, because `list(set(...))` order is not defined. It states only that the result has no duplicates, is drawn from the pool, and has `min(distinct, 50)` items.
- `JobScraper.ExtractAllKeywords` and `LinkedInScraper.ExtractKeywords` return sets. The order in which Python would iterate them is not modelled.
- Python's `float` on a string is the parameter `toFloat: string -> Option<real>`, with `None` where it raises `ValueError`. The float-literal syntax is not modelled.
- SimpleSuggestions.Attribute: a `category` that is not a string reads as absent. The source stores any value there; it is only printed, so nothing modelled depends on it.
- ResumeLlm.Items: a decoded value that is not an array is refused. Python's `for` would iterate an object's keys or a string's characters. As written this path is never taken (see "## Findings").
- `ats_scorer._extract_jd_text` is not modelled. Its result is never used by the score.
- The test and smoke scripts (`test_imports.py`, `test_gpt5.py`, `test_api.py`, `run_app.py`) and `src/scoring/__init__.py` are not part of this model.

## Findings

| source | as written | input that shows it | evidently intended | confidence | as-written member | corrected member |
|---|---|---|---|---|---|---|
| src/jobs/job_scraper.py:402 | experience years are read from a `dates` key that `ExperienceEntry` does not have, so every entry counts 0 years | a résumé with one entry dated 2015 to 2020 (`FiveYearResume`) | 5 years from `start_date`/`end_date` | high, not executed | JobScraper.YearsAsWrittenZero | JobScraper.FiveYearsCounted |
| src/regeneration/resume_builder.py:256 | only the key `summary` replaces the summary, but the suggestion engine emits `summary_section` (src/suggestions/suggestion_engine.py:538) | an accepted summary suggestion keyed `summary_section` | the summary is replaced | high, not executed | ResumeBuilder.SummarySectionIgnored | ResumeBuilder.SummarySectionApplied |
| src/suggestions/simple_suggestion_engine.py:303 | each nice-to-have item is rendered as the literal `  • r` | two JDs whose nice-to-have lists differ but have the same length give the same prompt digest | each item is listed | high, not executed | SimpleSuggestions.NiceToHaveIgnored | SimpleSuggestions.NiceToHaveListed |
| src/suggestions/suggestion_engine.py:234 | the identical-text check runs before truncation, so two texts equal in their first 200 characters are kept as a no-op suggestion | an original and a suggested text of 201 characters each that differ only in the last character | the no-op suggestion is dropped | medium, not executed | SuggestionEngine.IdenticalAfterCap | SuggestionEngine.BatchItem |
| src/parsers/resume_parser.py:165 | `.choices` is read from the string the chat helper returns (src/config.py:63), so the language-model path always gives nothing | the reply `{}`, which decodes to an empty object | the reply is decoded into a résumé | high, not executed | ResumeLlm.LlmPathIsDead | ResumeLlm.LlmResume |
| src/parsers/jd_parser.py:632 | the pattern `\bc\+\+\b` needs a word character after the final `+`, so "c++" followed by a space is never found | "c++ dev" | C++ is found | high, not executed | JdSkills.CppMissedByWordPattern | JdSkills.CppFoundAsToken |
| src/jobs/linkedin_scraper.py:351 | bullet words are taken only from bullets that are strings, but a dumped résumé holds bullets as dicts, so bullet words are lost | a résumé whose only bullet is "Roadmap" (`RoadmapResume`) | "roadmap" is a keyword | medium, not executed | LinkedInScraper.BulletKeywordLost | LinkedInScraper.ExtractKeywordsFromTexts |
