/**
 * The deterministic half of the prioritised suggestion generator: what is
 * selected from the résumé and the job description for the prompt, and
 * everything done to the model's reply — decoding, validation with
 * duplicate suppression and truncation, and ordering by priority then by
 * expected score gain.  The reply itself, `json.loads` and `uuid4()` are
 * parameters.
 */
module SimpleSuggestions {
  import opened Wrappers
  import opened Text
  import opened Collections
  import opened Schemas
  import opened LlmReply
  import opened Sorting

  // ---------------------------------------------------------------- validating one item

  /** `text[:500] + "..."` for a text longer than 500 characters. */
  function Cap500(s: string): (r: string)
    ensures |r| <= 503
    ensures |s| <= 500 ==> r == s
    ensures |s| > 500 ==> |r| == 503 && r[..500] == s[..500]
  {
    if |s| > 500 then s[..500] + "..." else s
  }

  /** The duplicate key of an original text: lower-cased, trimmed, its first 100 characters. */
  function DedupKey(original: string): string {
    Take(Strip(Lower(original)), 100)
  }

  /** What reading `original_text` and `suggested_text` gives. */
  datatype ItemTexts =
    | Skipped                                     // not a dict, an empty text, or two equal texts
    | Raises                                      // a present non-string value: `.strip()` raises
    | Candidate(original: string, suggested: string)

  function TextsOf(item: Json): (t: ItemTexts)
    ensures t.Candidate? ==> item.Obj? && t.original != "" && t.suggested != "" && t.original != t.suggested
    ensures t.Candidate? ==> Trimmed(t.original)
  {
    if !item.Obj? then Skipped
    else
      var o := Get(item.fields, "original_text", Str(""));
      var s := Get(item.fields, "suggested_text", Str(""));
      if !o.Str? || !s.Str? then Raises
      else
        var original := Strip(o.s);
        var suggested := Strip(s.s);
        if original == "" || suggested == "" || original == suggested then Skipped
        else Candidate(original, suggested)
  }

  /** A value for an `Optional[str]` field: a string, or `null`; anything else fails validation. */
  function OptionalText(v: Json): Option<Option<string>> {
    match v
    case Str(s) => Some(Some(s))
    case Null => Some(None)
    case _ => None
  }

  /**
   * `float(v)`: numbers and booleans convert, a string converts as `toFloat`
   * (Python's `float` on a string: `None` where it raises `ValueError`);
   * anything else raises.
   */
  function AsFloat(v: Json, toFloat: string -> Option<real>): Option<real> {
    match v
    case Num(x) => Some(x)
    case Bool(b) => Some(if b then 1.0 else 0.0)
    case Str(t) => toFloat(t)
    case _ => None
  }

  /** The category attribute; only a string value is modelled. */
  function Attribute(v: Json): Option<string> {
    if v.Str? then Some(v.s) else None
  }

  /**
   * Building the `Suggestion`; `None` when a field fails validation or the
   * priority is not a string (its `upper()` in the progress line raises),
   * and the item is skipped.
   */
  function Build(fields: map<string, Json>, id: string, original: string, suggested: string, toFloat: string -> Option<real>): (r: Option<Suggestion>)
    ensures r.Some? ==> r.value.id == id && r.value.originalText == original && r.value.suggestedText == suggested
    ensures r.Some? ==> r.value.priority.Some?
    ensures !Get(fields, "priority", Str("medium")).Str? ==> r.None?
  {
    var sectionType := Get(fields, "section_type", Str("bullet"));
    var sectionId := OptionalText(Get(fields, "section_id", Str("unknown")));
    var reason := Get(fields, "reason", Str("Improves match to job description"));
    var delta := AsFloat(Get(fields, "expected_score_delta", Num(2.0)), toFloat);
    var jdMapping := OptionalText(Get(fields, "jd_mapping", Str("")));
    var priority := Get(fields, "priority", Str("medium"));
    if sectionType.Str? && reason.Str? && sectionId.Some? && delta.Some? && jdMapping.Some? && priority.Str? then
      Some(Suggestion(id, sectionType.s, sectionId.value, original, suggested, reason.s, delta.value,
                      jdMapping.value, Attribute(Get(fields, "category", Str("experience"))),
                      Some(priority.s)))
    else None
  }

  /** An item with only its two texts gets every documented default. */
  lemma BuildDefaults(id: string, original: string, suggested: string, toFloat: string -> Option<real>)
    ensures var fields := map["original_text" := Str(original), "suggested_text" := Str(suggested)];
            Build(fields, id, original, suggested, toFloat)
            == Some(Suggestion(id, "bullet", Some("unknown"), original, suggested,
                               "Improves match to job description", 2.0, Some(""), Some("experience"), Some("medium")))
  {
  }

  /** A gain given as a numeric string is read through `float`, as Python does. */
  lemma BuildStringGain(id: string, original: string, suggested: string, toFloat: string -> Option<real>)
    requires toFloat("3") == Some(3.0)
    ensures var fields := map["original_text" := Str(original), "suggested_text" := Str(suggested),
                              "expected_score_delta" := Str("3")];
            var r := Build(fields, id, original, suggested, toFloat);
            r.Some? && r.value.expectedScoreDelta == 3.0
  {
  }

  // ---------------------------------------------------------------- the validation loop

  /** One item as the loop sees it: its texts and, for a candidate, the suggestion it would build. */
  datatype View = View(texts: ItemTexts, built: Option<Suggestion>)

  /** What the loop relies on about a view. */
  predicate Sound(v: View) {
    && (v.texts.Candidate? ==> v.texts.original != "" && Trimmed(v.texts.original))
    && (v.built.Some? ==> v.texts.Candidate? && v.built.value.originalText == Cap500(v.texts.original)
                          && v.built.value.suggestedText == Cap500(v.texts.suggested)
                          && v.texts.suggested != "")
  }

  function ViewOf(item: Json, id: string, toFloat: string -> Option<real>): (v: View)
    ensures Sound(v)
  {
    var t := TextsOf(item);
    View(t, if t.Candidate? then Build(item.fields, id, Cap500(t.original), Cap500(t.suggested), toFloat) else None)
  }

  /** The views of the items, the `k`-th item receiving the identifier `newId(k)`. */
  function Views(items: seq<Json>, newId: nat -> string, toFloat: string -> Option<real>): (vs: seq<View>)
    ensures |vs| == |items| && forall k :: 0 <= k < |items| ==> vs[k] == ViewOf(items[k], newId(k), toFloat)
  {
    seq(|items|, k requires 0 <= k < |items| => ViewOf(items[k], newId(k), toFloat))
  }

  /** The loop state: the duplicate keys seen and the suggestions built. */
  datatype Progress = Progress(seen: set<string>, kept: seq<Suggestion>)

  /** One iteration; `None` when the item raises. The key is marked seen before the item is validated. */
  function Step(p: Progress, v: View): Option<Progress> {
    match v.texts
    case Skipped => Some(p)
    case Raises => None
    case Candidate(original, _) =>
      var key := DedupKey(original);
      if key in p.seen then Some(p)
      else Some(Progress(p.seen + {key}, if v.built.Some? then p.kept + [v.built.value] else p.kept))
  }

  /** The loop over the views. */
  function Run(vs: seq<View>): Option<Progress> {
    if vs == [] then Some(Progress({}, []))
    else
      match Run(vs[..|vs| - 1])
      case None => None
      case Some(p) => Step(p, vs[|vs| - 1])
  }

  /** `_process_suggestions` over `items`. */
  function Process(items: seq<Json>, newId: nat -> string, toFloat: string -> Option<real>): Option<Progress> {
    Run(Views(items, newId, toFloat))
  }

  /** The duplicate keys of a list of suggestions. */
  function Keys(ss: seq<Suggestion>): (r: seq<string>)
    ensures |r| == |ss| && forall i :: 0 <= i < |ss| ==> r[i] == DedupKey(ss[i].originalText)
  {
    seq(|ss|, i requires 0 <= i < |ss| => DedupKey(ss[i].originalText))
  }

  lemma LowerTrimmed(s: string)
    requires Trimmed(s)
    ensures Trimmed(Lower(s))
  {
  }

  lemma CapTrimmed(s: string)
    requires Trimmed(s) && s != ""
    ensures Trimmed(Cap500(s))
  {
    var c := Cap500(s);
    assert c[0] == s[0];
  }

  lemma DedupKeyTrimmed(x: string)
    requires Trimmed(x)
    ensures DedupKey(x) == Take(Lower(x), 100)
  {
    LowerTrimmed(x);
    StripNoSpace(Lower(x));
  }

  lemma LowerPrefix(a: string, b: string, n: nat)
    requires n <= |a| && n <= |b| && a[..n] == b[..n]
    ensures Lower(a)[..n] == Lower(b)[..n]
  {
    forall i | 0 <= i < n ensures Lower(a)[i] == Lower(b)[i] {
      assert a[i] == a[..n][i];
    }
  }

  lemma CapPrefix(s: string)
    requires |s| > 500
    ensures Cap500(s)[..100] == s[..100]
  {
    var c := Cap500(s);
    assert c[..100] == c[..500][..100];
  }

  /** Truncation keeps the duplicate key of a trimmed text. */
  lemma DedupKeyCap(s: string)
    requires Trimmed(s) && s != ""
    ensures DedupKey(Cap500(s)) == DedupKey(s)
  {
    if |s| > 500 {
      var c := Cap500(s);
      CapTrimmed(s);
      DedupKeyTrimmed(s);
      DedupKeyTrimmed(c);
      CapPrefix(s);
      LowerPrefix(c, s, 100);
    }
  }

  /** Processing raises exactly when some item raises. */
  lemma {:induction false} RunRaisesIff(vs: seq<View>)
    ensures Run(vs).None? <==> exists k :: 0 <= k < |vs| && vs[k].texts.Raises?
  {
    if vs != [] {
      var init := vs[..|vs| - 1];
      var v := vs[|vs| - 1];
      RunRaisesIff(init);
      if Run(init).None? {
        var k :| 0 <= k < |init| && init[k].texts.Raises?;
        assert vs[k] == init[k];
      } else if !v.texts.Raises? {
        assert Step(Run(init).value, v).Some?;
        forall k | 0 <= k < |vs| ensures !vs[k].texts.Raises? {
          if k < |init| { assert vs[k] == init[k]; }
        }
      }
    }
  }

  /** Processing never builds more suggestions than there are items. */
  lemma {:induction false} RunKeptBound(vs: seq<View>)
    ensures Run(vs).Some? ==> |Run(vs).value.kept| <= |vs|
  {
    if vs != [] && Run(vs).Some? {
      var init := vs[..|vs| - 1];
      RunLast(vs);
      RunKeptBound(init);
      StepShape(Run(init).value, vs[|vs| - 1]);
    }
  }

  /** Processing raises exactly when some item raises; it never builds more suggestions than there are items. */
  lemma RunRaises(vs: seq<View>)
    ensures Run(vs).None? <==> exists k :: 0 <= k < |vs| && vs[k].texts.Raises?
    ensures Run(vs).Some? ==> |Run(vs).value.kept| <= |vs|
  {
    RunRaisesIff(vs);
    RunKeptBound(vs);
  }

  lemma ProcessRaises(items: seq<Json>, newId: nat -> string, toFloat: string -> Option<real>)
    ensures Process(items, newId, toFloat).None? <==> exists k :: 0 <= k < |items| && TextsOf(items[k]).Raises?
    ensures Process(items, newId, toFloat).Some? ==> |Process(items, newId, toFloat).value.kept| <= |items|
  {
    RunRaises(Views(items, newId, toFloat));
  }

  /** What one iteration does to the state. */
  lemma StepShape(p: Progress, v: View)
    requires Step(p, v).Some?
    ensures var q := Step(p, v).value;
            var isNew := v.texts.Candidate? && DedupKey(v.texts.original) !in p.seen && v.built.Some?;
            && q.seen == p.seen + (if v.texts.Candidate? then {DedupKey(v.texts.original)} else {})
            && q.kept == (if isNew then p.kept + [v.built.value] else p.kept)
  {
  }

  lemma RunLast(vs: seq<View>)
    requires vs != [] && Run(vs).Some?
    ensures Run(vs[..|vs| - 1]).Some? && Run(vs) == Step(Run(vs[..|vs| - 1]).value, vs[|vs| - 1])
  {
  }

  lemma {:induction false} RunKeptTexts(vs: seq<View>)
    requires Run(vs).Some? && forall k :: 0 <= k < |vs| ==> Sound(vs[k])
    ensures forall s :: s in Run(vs).value.kept ==> 0 < |s.originalText| <= 503 && 0 < |s.suggestedText| <= 503
  {
    if vs != [] {
      var init := vs[..|vs| - 1];
      var v := vs[|vs| - 1];
      assert forall k :: 0 <= k < |init| ==> init[k] == vs[k];
      RunLast(vs);
      RunKeptTexts(init);
      StepShape(Run(init).value, v);
      assert Sound(v);
    }
  }

  /** Appending a suggestion whose key is new keeps the kept keys distinct and recorded. */
  lemma KeptAppend(kept: seq<Suggestion>, seen: set<string>, s: Suggestion)
    requires forall i :: 0 <= i < |kept| ==> DedupKey(kept[i].originalText) in seen
    requires NoDuplicates(Keys(kept)) && DedupKey(s.originalText) !in seen
    ensures var all := kept + [s];
            && (forall i :: 0 <= i < |all| ==> DedupKey(all[i].originalText) in seen + {DedupKey(s.originalText)})
            && NoDuplicates(Keys(all))
  {
    var all := kept + [s];
    var key := DedupKey(s.originalText);
    forall i | 0 <= i < |all| ensures Keys(all)[i] == (Keys(kept) + [key])[i] {
      if i < |kept| { assert all[i] == kept[i]; }
    }
    assert Keys(all) == Keys(kept) + [key];
    NoDuplicatesAppend(Keys(kept), key);
  }

  lemma {:induction false} RunKeptDistinct(vs: seq<View>)
    requires Run(vs).Some? && forall k :: 0 <= k < |vs| ==> Sound(vs[k])
    ensures var p := Run(vs).value;
            && (forall i :: 0 <= i < |p.kept| ==> DedupKey(p.kept[i].originalText) in p.seen)
            && NoDuplicates(Keys(p.kept))
  {
    if vs != [] {
      var init := vs[..|vs| - 1];
      var v := vs[|vs| - 1];
      assert forall k :: 0 <= k < |init| ==> init[k] == vs[k];
      RunLast(vs);
      RunKeptDistinct(init);
      var p := Run(init).value;
      StepShape(p, v);
      if v.texts.Candidate? && DedupKey(v.texts.original) !in p.seen && v.built.Some? {
        assert Sound(v);
        DedupKeyCap(v.texts.original);
        KeptAppend(p.kept, p.seen, v.built.value);
      }
    }
  }

  /** Every built suggestion has both texts non-empty and at most 503 characters long, and no two share a duplicate key. */
  lemma ProcessKept(items: seq<Json>, newId: nat -> string, toFloat: string -> Option<real>)
    requires Process(items, newId, toFloat).Some?
    ensures var kept := Process(items, newId, toFloat).value.kept;
            && (forall s :: s in kept ==> 0 < |s.originalText| <= 503 && 0 < |s.suggestedText| <= 503)
            && NoDuplicates(Keys(kept))
  {
    RunKeptTexts(Views(items, newId, toFloat));
    RunKeptDistinct(Views(items, newId, toFloat));
  }

  /** The keys of the candidates among some views. */
  function CandidateKeys(vs: seq<View>): set<string> {
    set k | 0 <= k < |vs| && vs[k].texts.Candidate? :: DedupKey(vs[k].texts.original)
  }

  lemma CandidateKeysAppend(vs: seq<View>, v: View)
    ensures CandidateKeys(vs + [v])
            == CandidateKeys(vs) + (if v.texts.Candidate? then {DedupKey(v.texts.original)} else {})
  {
    var all := vs + [v];
    assert forall k :: 0 <= k < |vs| ==> all[k] == vs[k];
    assert all[|vs|] == v;
  }

  /** A built view whose key no earlier candidate had. */
  predicate FirstOfKey(vs: seq<View>, k: int)
    requires 0 <= k < |vs|
  {
    vs[k].texts.Candidate? && vs[k].built.Some? && DedupKey(vs[k].texts.original) !in CandidateKeys(vs[..k])
  }

  /** The seen set holds exactly the keys of the candidates processed so far. */
  lemma {:induction false} RunSeen(vs: seq<View>)
    requires Run(vs).Some?
    ensures Run(vs).value.seen == CandidateKeys(vs)
  {
    if vs != [] {
      var init := vs[..|vs| - 1];
      var v := vs[|vs| - 1];
      RunLast(vs);
      RunSeen(init);
      CandidateKeysAppend(init, v);
      assert vs == init + [v];
      StepShape(Run(init).value, v);
    }
  }

  lemma FirstOfKeyInit(vs: seq<View>, k: nat)
    requires k < |vs| - 1 && FirstOfKey(vs, k)
    ensures FirstOfKey(vs[..|vs| - 1], k)
  {
    var init := vs[..|vs| - 1];
    assert init[k] == vs[k] && init[..k] == vs[..k];
  }

  lemma {:induction false} RunFirstWins(vs: seq<View>)
    requires Run(vs).Some?
    ensures forall k :: 0 <= k < |vs| && FirstOfKey(vs, k) ==> vs[k].built.value in Run(vs).value.kept
  {
    if vs != [] {
      var init := vs[..|vs| - 1];
      var v := vs[|vs| - 1];
      RunLast(vs);
      RunFirstWins(init);
      RunSeen(init);
      var p := Run(init).value;
      var q := Run(vs).value;
      StepShape(p, v);
      assert p.kept <= q.kept;
      forall k | 0 <= k < |vs| && FirstOfKey(vs, k) ensures vs[k].built.value in q.kept {
        if k < |init| {
          FirstOfKeyInit(vs, k);
        } else {
          assert vs[..k] == init;
        }
      }
    }
  }

  /**
   * The first wins: a candidate that validates is kept unless an earlier
   * candidate had the same duplicate key.
   */
  lemma ProcessFirstWins(items: seq<Json>, newId: nat -> string, toFloat: string -> Option<real>, k: nat)
    requires Process(items, newId, toFloat).Some? && k < |items|
    requires FirstOfKey(Views(items, newId, toFloat), k)
    ensures ViewOf(items[k], newId(k), toFloat).built.value in Process(items, newId, toFloat).value.kept
  {
    RunFirstWins(Views(items, newId, toFloat));
  }

  /** `_process_suggestions`, item by item with the seen set. */
  method ProcessSuggestions(items: seq<Json>, newId: nat -> string, toFloat: string -> Option<real>) returns (result: Option<seq<Suggestion>>)
    ensures result.None? <==> Process(items, newId, toFloat).None?
    ensures result.Some? ==> result.value == Process(items, newId, toFloat).value.kept
  {
    var vs := Views(items, newId, toFloat);
    var p := Progress({}, []);
    var i := 0;
    while i < |items|
      invariant 0 <= i <= |items|
      invariant Run(vs[..i]) == Some(p)
    {
      assert vs[..i + 1][..i] == vs[..i];
      var next := ProcessItem(p, vs[i]);
      if next.None? {
        RaiseStops(vs, i + 1);
        return None;
      }
      p := next.value;
      i := i + 1;
    }
    assert vs[..i] == vs;
    return Some(p.kept);
  }

  /** The body of the loop for one item, given what the item reads as: `None` when it raises. */
  method ProcessItem(p: Progress, v: View) returns (next: Option<Progress>)
    ensures next == Step(p, v)
  {
    if v.texts.Raises? {
      return None;
    }
    next := Some(p);
    if v.texts.Candidate? {
      var key := DedupKey(v.texts.original);
      if key !in p.seen {
        var kept := p.kept;
        if v.built.Some? {
          kept := kept + [v.built.value];
        }
        next := Some(Progress(p.seen + {key}, kept));
      }
    }
  }

  /** Once an item has raised, the remaining items do not matter. */
  lemma {:induction false} RaiseStops(vs: seq<View>, n: nat)
    requires n <= |vs| && Run(vs[..n]).None?
    ensures Run(vs).None?
    decreases |vs| - n
  {
    if n < |vs| {
      assert vs[..n + 1][..n] == vs[..n];
      RaiseStops(vs, n + 1);
    } else {
      assert vs[..n] == vs;
    }
  }

  // ---------------------------------------------------------------- ordering and the whole reply

  /** `priority_order.get(priority, 1)` */
  function PriorityRank(priority: Option<string>): int {
    if priority == Some("high") then 0 else if priority == Some("low") then 2 else 1
  }

  /** The sort key: priority rank, then the expected gain, largest first. */
  function PriorityKey(s: Suggestion): Key {
    (PriorityRank(s.priority), -s.expectedScoreDelta)
  }

  /** The result: the summary value and the suggestions. */
  datatype Outcome = Outcome(summary: Json, suggestions: seq<Suggestion>)

  /** `{"summary": None, "suggestions": []}` */
  const NoSuggestions := Outcome(Null, [])

  /** Iterating the `suggestions` value: a list gives its items, a string or dict only skipped items, anything else raises. */
  function ItemsOf(v: Json): Option<seq<Json>> {
    match v
    case Arr(items) => Some(items)
    case Str(_) => Some([])
    case Obj(_) => Some([])
    case _ => None
  }

  /** The summary value and the suggestion items of a usable reply. */
  function ReplyParts(reply: Option<string>, decode: string -> Option<Json>): Option<(Json, seq<Json>)> {
    if !Truthy(reply) then None
    else
      match ParseReply(reply.value, decode)
      case None => None
      case Some(v) =>
        if !JsonTruthy(v) || !v.Obj? then None
        else
          match ItemsOf(Get(v.fields, "suggestions", Arr([])))
          case None => None
          case Some(items) => Some((Get(v.fields, "summary", Str("")), items))
  }

  /** `generate_suggestions` after the model call. */
  function Generate(reply: Option<string>, decode: string -> Option<Json>, maxSuggestions: int,
                    newId: nat -> string, toFloat: string -> Option<real>): Outcome
  {
    match ReplyParts(reply, decode)
    case None => NoSuggestions
    case Some((summary, items)) =>
      match Process(items, newId, toFloat)
      case None => NoSuggestions
      case Some(p) => Outcome(summary, Top(p.kept, maxSuggestions))
  }

  /** The first `n` of the validated suggestions in priority order. */
  function Top(kept: seq<Suggestion>, n: int): seq<Suggestion> {
    SliceTo(SortBy(kept, PriorityKey), n)
  }

  /**
   * High before medium before low and larger gains first, at most `n` of
   * them (for `n >= 0`), all validated ones, and any validated suggestion
   * that ranks strictly before a returned one is returned too.
   */
  lemma TopSpec(kept: seq<Suggestion>, n: int)
    ensures SortedBy(Top(kept, n), PriorityKey)
    ensures n >= 0 ==> |Top(kept, n)| <= n
    ensures multiset(Top(kept, n)) <= multiset(kept)
    ensures forall r, x :: r in Top(kept, n) && x in kept && KeyLess(PriorityKey(x), PriorityKey(r)) ==> x in Top(kept, n)
  {
    SortedSliceSpec(kept, PriorityKey, n);
  }

  /** A missing, empty, undecodable or non-object reply gives no summary and no suggestions; otherwise the suggestions are the top validated ones. */
  lemma GenerateSpec(reply: Option<string>, decode: string -> Option<Json>, maxSuggestions: int, newId: nat -> string, toFloat: string -> Option<real>)
    ensures ReplyParts(reply, decode).None? ==> Generate(reply, decode, maxSuggestions, newId, toFloat) == NoSuggestions
    ensures ReplyParts(reply, decode).Some? ==>
              var items := ReplyParts(reply, decode).value.1;
              && (Process(items, newId, toFloat).None? ==> Generate(reply, decode, maxSuggestions, newId, toFloat) == NoSuggestions)
              && (Process(items, newId, toFloat).Some? ==>
                    Generate(reply, decode, maxSuggestions, newId, toFloat).suggestions == Top(Process(items, newId, toFloat).value.kept, maxSuggestions))
  {
  }

  /** `generate_suggestions` once the reply is in hand: validate, sort, truncate. */
  method GenerateSuggestions(reply: Option<string>, decode: string -> Option<Json>, maxSuggestions: int,
                             newId: nat -> string, toFloat: string -> Option<real>) returns (outcome: Outcome)
    ensures outcome == Generate(reply, decode, maxSuggestions, newId, toFloat)
  {
    var parts := ReplyParts(reply, decode);
    if parts.None? {
      return NoSuggestions;
    }
    var (summary, items) := parts.value;
    var suggestions := ProcessSuggestions(items, newId, toFloat);
    if suggestions.None? {
      return NoSuggestions;
    }
    var ordered := SortBy(suggestions.value, PriorityKey);
    return Outcome(summary, SliceTo(ordered, maxSuggestions));
  }

  // ---------------------------------------------------------------- refining one suggestion

  /** `refine_suggestion` after the model call, the new suggestion receiving the identifier `id`. */
  function Refine(orig: Suggestion, reply: Option<string>, decode: string -> Option<Json>, id: string): (r: Option<Suggestion>)
    ensures !Truthy(reply) ==> r.None?
  {
    if !Truthy(reply) then None
    else
      match ParseReply(reply.value, decode)
      case None => None
      case Some(v) =>
        if !JsonTruthy(v) || !v.Obj? then None
        else
          var text := Get(v.fields, "suggested_text", Str(orig.suggestedText));
          var reason := Get(v.fields, "reason", Str(orig.reason));
          if text.Str? && reason.Str? then
            Some(orig.(id := id, suggestedText := text.s, reason := reason.s))
          else None
  }

  /**
   * A refined suggestion keeps the section, the original text, the expected
   * gain, the requirement mapping, the category and the priority, and takes
   * the new text and reason from the reply, falling back to the old ones.
   */
  lemma RefineSpec(orig: Suggestion, reply: Option<string>, decode: string -> Option<Json>, id: string)
    ensures var r := Refine(orig, reply, decode, id);
            r.Some? ==>
              && r.value.id == id
              && r.value.sectionType == orig.sectionType && r.value.sectionId == orig.sectionId
              && r.value.originalText == orig.originalText
              && r.value.expectedScoreDelta == orig.expectedScoreDelta && r.value.jdMapping == orig.jdMapping
              && r.value.category == orig.category && r.value.priority == orig.priority
              && var v := ParseReply(reply.value, decode).value;
                 && ("suggested_text" in v.fields ==> v.fields["suggested_text"] == Str(r.value.suggestedText))
                 && ("suggested_text" !in v.fields ==> r.value.suggestedText == orig.suggestedText)
                 && ("reason" in v.fields ==> v.fields["reason"] == Str(r.value.reason))
                 && ("reason" !in v.fields ==> r.value.reason == orig.reason)
  {
  }

  // ---------------------------------------------------------------- what the prompt shows

  /** `"    [i_bullet_j] text"`: a bullet tagged with its locator. */
  function BulletLine(i: nat, j: nat, text: string): string {
    "    [" + NatToString(i) + "_bullet_" + NatToString(j) + "] " + text
  }

  function BulletLines(i: nat, bullets: seq<BulletPoint>): (r: seq<string>)
    ensures |r| == |bullets| && forall j :: 0 <= j < |bullets| ==> r[j] == BulletLine(i, j, bullets[j].text)
  {
    seq(|bullets|, j requires 0 <= j < |bullets| => BulletLine(i, j, bullets[j].text))
  }

  /** The lines for experience entry `i`. */
  function ExperienceBlock(i: nat, e: ExperienceEntry): seq<string> {
    ["\n[" + NatToString(i) + "] " + e.title + " at " + e.company]
    + (if Truthy(e.startDate) then ["    (" + e.startDate.value + " - " + (if Truthy(e.endDate) then e.endDate.value else "Present") + ")"] else [])
    + BulletLines(i, e.bullets)
  }

  function ExperienceLines(es: seq<ExperienceEntry>): seq<string> {
    if es == [] then [] else ExperienceLines(es[..|es| - 1]) + ExperienceBlock(|es| - 1, es[|es| - 1])
  }

  /** The parts of `_prepare_resume_summary`, before joining with newlines. */
  function ResumeDigestParts(r: ResumeData): seq<string> {
    (if Truthy(r.summary) then ["=== SUMMARY ===\n" + r.summary.value + "\n"] else [])
    + ["=== EXPERIENCE ==="]
    + ExperienceLines(Take(r.experience, 5))
    + (if r.skills != [] then ["\n=== SKILLS ===\n" + Join(Take(r.skills, 30), ", ")] else [])
    + (if r.education != [] then
         ["\n=== EDUCATION ==="]
         + seq(|Take(r.education, 3)|, k requires 0 <= k < |Take(r.education, 3)| =>
                 "  • " + Take(r.education, 3)[k].degree + " - " + Take(r.education, 3)[k].institution)
       else [])
  }

  /** `_prepare_resume_summary` */
  function ResumeDigest(r: ResumeData): string {
    Join(ResumeDigestParts(r), "\n")
  }

  lemma {:induction false} ExperienceLinesHold(es: seq<ExperienceEntry>, i: nat, j: nat)
    requires i < |es| && j < |es[i].bullets|
    ensures BulletLine(i, j, es[i].bullets[j].text) in ExperienceLines(es)
  {
    if i < |es| - 1 {
      ExperienceLinesHold(es[..|es| - 1], i, j);
    } else {
      var block := ExperienceBlock(i, es[i]);
      assert BulletLines(i, es[i].bullets)[j] in block;
    }
  }

  /**
   * Every bullet of the first five experience entries is shown, tagged with
   * its entry and bullet index, and the tagged line appears in the prompt text.
   */
  lemma ResumeDigestShowsBullets(r: ResumeData, i: nat, j: nat)
    requires i < |r.experience| && i < 5 && j < |r.experience[i].bullets|
    ensures BulletLine(i, j, r.experience[i].bullets[j].text) in ResumeDigestParts(r)
    ensures Contains(ResumeDigest(r), BulletLine(i, j, r.experience[i].bullets[j].text))
  {
    var es := Take(r.experience, 5);
    assert es[i] == r.experience[i];
    ExperienceLinesHold(es, i, j);
    JoinContainsPart(ResumeDigestParts(r), "\n", BulletLine(i, j, r.experience[i].bullets[j].text));
  }

  /** The must-have list: the new field if non-empty, else the legacy requirements. */
  function MustHave(jd: JobDescription): seq<string> {
    if jd.mustHaveRequirements != [] then jd.mustHaveRequirements else jd.requirements
  }

  function NiceToHave(jd: JobDescription): seq<string> {
    if jd.niceToHaveRequirements != [] then jd.niceToHaveRequirements else jd.preferredQualifications
  }

  function TechnicalSkills(jd: JobDescription): seq<string> {
    if jd.technicalSkills != [] then jd.technicalSkills else jd.requiredSkills
  }

  function KeyTerms(jd: JobDescription): seq<string> {
    if jd.keywordsToInclude != [] then jd.keywordsToInclude else jd.keywords
  }

  /** `[f"  • {r}" for r in items]` */
  function Bullets(items: seq<string>): (r: seq<string>)
    ensures |r| == |items| && forall k :: 0 <= k < |items| ==> r[k] == "  • " + items[k]
  {
    seq(|items|, k requires 0 <= k < |items| => "  • " + items[k])
  }

  /** A titled list section, present only when the list is non-empty. */
  function Section(title: string, lines: seq<string>): seq<string> {
    if lines != [] then [title] + lines else []
  }

  /** A one-line comma-joined section, present only when the list is non-empty. */
  function InlineSection(title: string, items: seq<string>): seq<string> {
    if items != [] then [title + Join(items, ", ")] else []
  }

  /** The parts of `_prepare_jd_for_matching`, with the nice-to-have lines rendered by `niceLines`. */
  function JdDigestPartsWith(jd: JobDescription, niceLines: seq<string> -> seq<string>): seq<string> {
    ["ROLE: " + jd.roleTitle]
    + (if Truthy(jd.company) then ["COMPANY: " + jd.company.value] else [])
    + (if Truthy(jd.roleSummary) then ["\nROLE SUMMARY: " + jd.roleSummary.value] else [])
    + Section("\n\U{1F6A8} MUST-HAVE REQUIREMENTS:", Bullets(Take(MustHave(jd), 10)))
    + Section("\n⭐ NICE-TO-HAVE:", niceLines(Take(NiceToHave(jd), 8)))
    + InlineSection("\n\U{1F527} TECHNICAL SKILLS: ", Take(TechnicalSkills(jd), 15))
    + InlineSection("\n\U{1F4AC} SOFT SKILLS: ", Take(jd.softSkills, 10))
    + InlineSection("\n\U{1F511} KEY TERMS: ", Take(KeyTerms(jd), 15))
    + Section("\n\U{1F4DD} RESPONSIBILITIES:", Bullets(Take(jd.responsibilities, 8)))
  }

  /** As written: every nice-to-have line is the literal `"  • r"`, whatever the item. */
  function LiteralLines(items: seq<string>): (r: seq<string>)
    ensures |r| == |items|
  {
    seq(|items|, k requires 0 <= k < |items| => "  • r")
  }

  /** The digest as written. */
  function JdDigestParts(jd: JobDescription): seq<string> {
    JdDigestPartsWith(jd, LiteralLines)
  }

  /** The digest as evidently intended: nice-to-have items rendered like the must-have ones. */
  function JdDigestPartsFixed(jd: JobDescription): seq<string> {
    JdDigestPartsWith(jd, Bullets)
  }

  /** The JD text of the prompt: the joined digest as written, cut to 6000 characters. */
  function JdPromptText(jd: JobDescription): (t: string)
    ensures |t| <= 6000
    ensures var full := Join(JdDigestParts(jd), "\n");
            |t| == (if |full| <= 6000 then |full| else 6000) && t == full[..|t|]
  {
    Take(Join(JdDigestParts(jd), "\n"), 6000)
  }

  /** The first ten must-have items are listed, each on a bullet line. */
  lemma JdDigestShowsMustHave(jd: JobDescription, k: nat)
    requires k < |MustHave(jd)| && k < 10
    ensures "  • " + MustHave(jd)[k] in JdDigestParts(jd)
    ensures "  • " + MustHave(jd)[k] in JdDigestPartsFixed(jd)
  {
    var lines := Bullets(Take(MustHave(jd), 10));
    assert lines[k] == "  • " + MustHave(jd)[k];
  }

  /**
   * As written the prompt carries no nice-to-have content: replacing the
   * items by any others of the same number leaves the digest, and so the
   * prompt's JD text, unchanged.
   */
  lemma NiceToHaveIgnored(jd: JobDescription, other: seq<string>)
    requires jd.niceToHaveRequirements != [] && other != []
    requires |Take(other, 8)| == |Take(jd.niceToHaveRequirements, 8)|
    ensures JdDigestParts(jd.(niceToHaveRequirements := other)) == JdDigestParts(jd)
    ensures JdPromptText(jd.(niceToHaveRequirements := other)) == JdPromptText(jd)
  {
    var jd' := jd.(niceToHaveRequirements := other);
    assert LiteralLines(Take(NiceToHave(jd'), 8)) == LiteralLines(Take(NiceToHave(jd), 8));
  }

  /** With the intended rendering each of the first eight nice-to-have items is listed. */
  lemma NiceToHaveListed(jd: JobDescription, k: nat)
    requires k < |NiceToHave(jd)| && k < 8
    ensures "  • " + NiceToHave(jd)[k] in JdDigestPartsFixed(jd)
  {
    var lines := Bullets(Take(NiceToHave(jd), 8));
    assert lines[k] == "  • " + NiceToHave(jd)[k];
    assert lines[k] in Section("\n⭐ NICE-TO-HAVE:", lines);
  }
}
