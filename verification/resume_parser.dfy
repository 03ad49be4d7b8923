/**
 * The rule-based résumé parser: joining the wrapped lines of PDF text,
 * recognising section headings, grouping DOCX paragraphs by section, and
 * pulling personal details, experience, education, skills and
 * certifications out of plain text, plus the language-model path.
 *
 * Each regular expression the parser uses is a parameter, bundled in
 * `Patterns`: a predicate for a test (`re.match`/`re.search` used as a
 * boolean), a function to the captured text for a search, or to the list
 * `re.findall` returns.  Literal prefix tests, case-insensitive keyword
 * tests and the small anchored patterns are written out.
 */
module ResumeParser {
  import opened Wrappers
  import opened Text
  import opened Collections
  import opened Schemas
  import opened LlmReply

  datatype Patterns = Patterns(
    /** The five regular-expression alternatives of the new-item test when joining lines. */
    newItem: string -> bool,
    /** `re.findall` of the e-mail pattern. */
    emails: string -> seq<string>,
    /** `re.findall` of each phone pattern, in order. */
    phones: string -> seq<seq<string>>,
    /** `re.findall` of each LinkedIn pattern, in order. */
    linkedins: string -> seq<seq<string>>,
    /** `re.findall` of each location pattern, in order. */
    locations: string -> seq<seq<string>>,
    /** The stripped group of each summary pattern that matches the text, in pattern order. */
    summaryMatches: string -> seq<string>,
    /** The group of the first experience pattern that matches the text. */
    experienceMatch: string -> Option<string>,
    /** A month-and-year, "| Mon YYYY -" or year-range token in a line. */
    dateHeader: string -> bool,
    /** A '|' later followed by four digits. */
    pipeYear: string -> bool,
    /** The first start/end date pair of an entry. */
    dateRange: string -> Option<(string, string)>,
    /** The group of the first education pattern that matches the text. */
    educationMatch: string -> Option<string>,
    /** A year, "Expected YYYY" or month-and-year token in a line. */
    graduationDate: string -> Option<string>,
    /** Deletes year, "Expected" and month-name tokens. */
    scrubDates: string -> string,
    /** The group of the first skills pattern that matches the text. */
    skillsMatch: string -> Option<string>,
    /** Deletes everything from a standalone EDUCATION or CERTIFICATION(S) word on. */
    cutAtHeading: string -> string,
    /** A certification word, "AWS Certified", "Scrum Master", "Professional" and the like in a skills line. */
    certificationLine: string -> bool,
    /** A certification word in a single skill item. */
    certificationWord: string -> bool,
    /** The group of the first certifications pattern that matches the text. */
    certificationsMatch: string -> Option<string>)

  // ---------------------------------------------------------------- joining wrapped lines

  /** A stripped line that starts a new unit: a bullet, a heading, a job line and so on. */
  predicate NewItem(stripped: string, rx: Patterns) {
    StartsWith(stripped, "•") || StartsWith(stripped, "- ") || StartsWith(stripped, "* ") || rx.newItem(stripped)
  }

  /** A unit that a continuation line is appended to: a bullet, or text not ending in . : ! or ?. */
  predicate Open(unit: string) {
    StartsWith(unit, "•") || StartsWith(unit, "- ")
    || !(EndsWith(unit, ".") || EndsWith(unit, ":") || EndsWith(unit, "!") || EndsWith(unit, "?"))
  }

  /** The emitted units and the unit being built. */
  datatype JoinState = JoinState(done: seq<string>, current: string)

  const Start := JoinState([], "")

  /** One input line. */
  function JoinStep(st: JoinState, line: string, rx: Patterns): JoinState {
    var s := Strip(line);
    if s == "" then
      if st.current != "" then JoinState(st.done + [st.current], "") else st
    else if NewItem(s, rx) then
      JoinState(if st.current != "" then st.done + [st.current] else st.done, s)
    else if st.current != "" then
      if Open(st.current) then JoinState(st.done, st.current + " " + s)
      else JoinState(st.done + [st.current], s)
    else JoinState(st.done, s)
  }

  function Joiner(rx: Patterns): (JoinState, string) -> JoinState {
    (st, line) => JoinStep(st, line, rx)
  }

  function JoinFrom(st: JoinState, lines: seq<string>, rx: Patterns): JoinState {
    FoldLeft(st, lines, Joiner(rx))
  }

  lemma JoinFromLast(st: JoinState, lines: seq<string>, rx: Patterns)
    requires lines != []
    ensures JoinFrom(st, lines, rx) == JoinStep(JoinFrom(st, lines[..|lines| - 1], rx), lines[|lines| - 1], rx)
  {
  }

  /** The emitted units once the unit being built is flushed. */
  function Close(st: JoinState): seq<string> {
    if st.current != "" then st.done + [st.current] else st.done
  }

  /** The logical lines built from the physical ones. */
  function Units(lines: seq<string>, rx: Patterns): seq<string> {
    Close(JoinFrom(Start, lines, rx))
  }

  /** `_join_wrapped_lines`: the units, one per line. */
  method JoinWrappedLines(text: string, rx: Patterns) returns (r: string)
    ensures r == Join(Units(Split(text, '\n'), rx), "\n")
  {
    var units := JoinUnits(Split(text, '\n'), rx);
    r := Join(units, "\n");
  }

  /** The joining loop over the physical lines. */
  method JoinUnits(lines: seq<string>, rx: Patterns) returns (units: seq<string>)
    ensures units == Units(lines, rx)
  {
    var st := Start;
    var i := 0;
    while i < |lines|
      invariant 0 <= i <= |lines|
      invariant JoinFrom(Start, lines[..i], rx) == st
    {
      JoinFromNext(lines, i, rx);
      var done, current := Feed(st.done, st.current, lines[i], rx);
      st := JoinState(done, current);
      i := i + 1;
    }
    assert lines[..i] == lines;
    units := Close(st);
  }

  lemma JoinFromNext(lines: seq<string>, i: int, rx: Patterns)
    requires 0 <= i < |lines|
    ensures JoinFrom(Start, lines[..i + 1], rx) == JoinStep(JoinFrom(Start, lines[..i], rx), lines[i], rx)
  {
    FoldLeftNext(Start, lines, i, Joiner(rx));
  }

  /** The body of the joining loop, for one physical line. */
  method Feed(done: seq<string>, current: string, line: string, rx: Patterns) returns (done': seq<string>, current': string)
    ensures JoinState(done', current') == JoinStep(JoinState(done, current), line, rx)
  {
    done', current' := done, current;
    var stripped := Strip(line);
    if stripped == "" {
      if current != "" {
        done' := done + [current];
        current' := "";
      }
    } else if NewItem(stripped, rx) {
      if current != "" {
        done' := done + [current];
      }
      current' := stripped;
    } else if current != "" {
      if Open(current) {
        current' := current + " " + stripped;
      } else {
        done' := done + [current];
        current' := stripped;
      }
    } else {
      current' := stripped;
    }
  }

  /** A well-formed unit: non-empty, on one line, with no whitespace at either end. */
  predicate UnitLine(u: string) {
    u != "" && '\n' !in u && !IsSpace(u[0]) && !IsSpace(u[|u| - 1])
  }

  predicate GoodState(st: JoinState) {
    (forall k :: 0 <= k < |st.done| ==> UnitLine(st.done[k]))
    && (st.current == "" || UnitLine(st.current))
  }

  lemma StripUnit(line: string)
    requires '\n' !in line && Strip(line) != ""
    ensures UnitLine(Strip(line))
  {
    StripWithin(line);
  }

  lemma GoodContinued(st: JoinState, s: string)
    requires GoodState(st) && st.current != "" && UnitLine(s)
    ensures GoodState(JoinState(st.done, st.current + " " + s))
  {
    var u := st.current + " " + s;
    assert u[0] == st.current[0] && u[|u| - 1] == s[|s| - 1];
    assert forall c :: c in u ==> c in st.current || c == ' ' || c in s;
  }

  lemma GoodClosed(st: JoinState, s: string)
    requires GoodState(st) && (s == "" || UnitLine(s))
    ensures GoodState(JoinState(Close(st), s))
  {
  }

  lemma JoinStepGood(st: JoinState, line: string, rx: Patterns)
    requires GoodState(st) && '\n' !in line
    ensures GoodState(JoinStep(st, line, rx))
  {
    var s := Strip(line);
    if s == "" {
      assert JoinStep(st, line, rx) == JoinState(Close(st), "");
      GoodClosed(st, "");
    } else {
      StripUnit(line);
      if NewItem(s, rx) || st.current == "" || !Open(st.current) {
        assert JoinStep(st, line, rx) == JoinState(Close(st), s);
        GoodClosed(st, s);
      } else {
        assert JoinStep(st, line, rx) == JoinState(st.done, st.current + " " + s);
        GoodContinued(st, s);
      }
    }
  }

  lemma {:induction false} JoinFromGood(lines: seq<string>, rx: Patterns)
    requires forall k :: 0 <= k < |lines| ==> '\n' !in lines[k]
    ensures GoodState(JoinFrom(Start, lines, rx))
  {
    if lines != [] {
      var init := lines[..|lines| - 1];
      JoinFromGood(init, rx);
      JoinFromLast(Start, lines, rx);
      JoinStepGood(JoinFrom(Start, init, rx), lines[|lines| - 1], rx);
    }
  }

  /**
   * No emitted line is empty: the output is empty when there are no units,
   * and otherwise its lines are exactly the units, each non-empty and
   * trimmed.
   */
  lemma JoinedLines(text: string, rx: Patterns)
    ensures var units := Units(Split(text, '\n'), rx);
            && (units == [] ==> Join(units, "\n") == "")
            && (units != [] ==> Split(Join(units, "\n"), '\n') == units)
            && forall k :: 0 <= k < |units| ==> UnitLine(units[k])
  {
    var lines := Split(text, '\n');
    JoinFromGood(lines, rx);
    var units := Units(lines, rx);
    if units != [] {
      JoinSplit(units, '\n');
    }
  }

  /** Units already emitted are never touched again. */
  lemma JoinStepShift(d: seq<string>, st: JoinState, line: string, rx: Patterns)
    ensures JoinStep(JoinState(d + st.done, st.current), line, rx)
         == JoinState(d + JoinStep(st, line, rx).done, JoinStep(st, line, rx).current)
  {
    assert (d + st.done) + [st.current] == d + (st.done + [st.current]);
  }

  lemma {:induction false} JoinFromShift(d: seq<string>, c: string, lines: seq<string>, rx: Patterns)
    ensures JoinFrom(JoinState(d, c), lines, rx)
         == JoinState(d + JoinFrom(JoinState([], c), lines, rx).done, JoinFrom(JoinState([], c), lines, rx).current)
  {
    if lines == [] {
      assert d + [] == d;
    } else {
      var init := lines[..|lines| - 1];
      JoinFromShift(d, c, init, rx);
      JoinFromLast(JoinState(d, c), lines, rx);
      JoinFromLast(JoinState([], c), lines, rx);
      JoinStepShift(d, JoinFrom(JoinState([], c), init, rx), lines[|lines| - 1], rx);
    }
  }

  lemma CloseShift(d: seq<string>, st: JoinState)
    ensures Close(JoinState(d + st.done, st.current)) == d + Close(st)
  {
    assert (d + st.done) + [st.current] == d + (st.done + [st.current]);
  }

  /** A blank line closes the unit being built: what precedes it and what follows it are joined independently. */
  lemma BlankLineSeparates(before: seq<string>, blank: string, after: seq<string>, rx: Patterns)
    requires IsBlank(blank)
    ensures Units(before + [blank] + after, rx) == Units(before, rx) + Units(after, rx)
  {
    StripEmptyIffBlank(blank);
    var st := JoinFrom(Start, before, rx);
    FoldLeftAppend(Start, before, [blank], Joiner(rx));
    assert JoinFrom(st, [blank], rx) == JoinStep(st, blank, rx);
    assert JoinStep(st, blank, rx) == JoinState(Close(st), "");
    FoldLeftAppend(Start, before + [blank], after, Joiner(rx));
    JoinFromShift(Close(st), "", after, rx);
    CloseShift(Close(st), JoinFrom(Start, after, rx));
  }

  /** A new-item line always starts a unit: what precedes it is joined independently of it and what follows. */
  lemma NewItemSeparates(before: seq<string>, line: string, after: seq<string>, rx: Patterns)
    requires Strip(line) != "" && NewItem(Strip(line), rx)
    ensures Units(before + [line] + after, rx) == Units(before, rx) + Units([line] + after, rx)
  {
    var s := Strip(line);
    var st := JoinFrom(Start, before, rx);
    FoldLeftAppend(Start, before, [line], Joiner(rx));
    assert JoinFrom(st, [line], rx) == JoinState(Close(st), s);
    FoldLeftAppend(Start, before + [line], after, Joiner(rx));
    JoinFromShift(Close(st), s, after, rx);
    var rest := JoinFrom(JoinState([], s), after, rx);
    CloseShift(Close(st), rest);
    FoldLeftAppend(Start, [line], after, Joiner(rx));
    assert JoinFrom(Start, [line], rx) == JoinState([], s);
  }

  /**
   * A line that is not a new item continues the line before it exactly when
   * that line is a bullet or does not end a sentence; otherwise it starts a
   * unit of its own.
   */
  lemma Continuation(first: string, next: string, rx: Patterns)
    requires Strip(first) != "" && Strip(next) != "" && !NewItem(Strip(next), rx)
    ensures Open(Strip(first)) ==> Units([first, next], rx) == [Strip(first) + " " + Strip(next)]
    ensures !Open(Strip(first)) ==> Units([first, next], rx) == [Strip(first), Strip(next)]
  {
    assert [first, next][..1] == [first];
    assert [first][..0] == [];
    JoinFromLast(Start, [first], rx);
    JoinFromLast(Start, [first, next], rx);
  }

  /** The non-whitespace characters of a text, in order. */
  function Ink(s: string): string {
    if s == [] then [] else Ink(s[..|s| - 1]) + (if IsSpace(s[|s| - 1]) then [] else [s[|s| - 1]])
  }

  lemma {:induction false} InkAppend(a: string, b: string)
    ensures Ink(a + b) == Ink(a) + Ink(b)
    decreases |b|
  {
    if b == [] {
      assert a + b == a;
    } else {
      InkAppend(a, b[..|b| - 1]);
      assert (a + b)[..|a + b| - 1] == a + b[..|b| - 1];
    }
  }

  lemma {:induction false} InkBlank(s: string)
    requires IsBlank(s)
    ensures Ink(s) == []
  {
    if s != [] {
      InkBlank(s[..|s| - 1]);
    }
  }

  lemma InkTrimStart(s: string)
    ensures Ink(TrimStart(s)) == Ink(s)
  {
    var t := TrimStart(s);
    var p := s[..|s| - |t|];
    assert s == p + t;
    assert IsBlank(p);
    InkAppend(p, t);
    InkBlank(p);
  }

  lemma InkTrimEnd(s: string)
    ensures Ink(TrimEnd(s)) == Ink(s)
  {
    var t := TrimEnd(s);
    var p := s[|t|..];
    assert s == t + p;
    assert IsBlank(p);
    InkAppend(t, p);
    InkBlank(p);
  }

  lemma InkStrip(s: string)
    ensures Ink(Strip(s)) == Ink(s)
  {
    InkTrimStart(s);
    InkTrimEnd(TrimStart(s));
  }

  lemma InkSpaced(a: string, b: string)
    ensures Ink(a + " " + b) == Ink(a) + Ink(b)
  {
    InkAppend(a + " ", b);
    InkAppend(a, " ");
    InkBlank(" ");
    assert Ink(a) + [] == Ink(a);
  }

  /** What a state holds, as text. */
  function Held(st: JoinState): string {
    Flatten(st.done) + st.current
  }

  lemma HeldClose(st: JoinState)
    ensures Flatten(Close(st)) == Held(st)
  {
    if st.current != "" {
      FlattenSnoc(st.done, st.current);
    } else {
      assert Held(st) == Flatten(st.done) + [];
    }
  }

  lemma InkFlushed(st: JoinState)
    ensures Ink(Held(JoinState(Close(st), ""))) == Ink(Held(st))
  {
    HeldClose(st);
    var c := Flatten(Close(st));
    assert Held(JoinState(Close(st), "")) == c + [];
    assert c + [] == c;
  }

  lemma InkStarted(st: JoinState, s: string)
    ensures Ink(Held(JoinState(Close(st), s))) == Ink(Held(st)) + Ink(s)
  {
    HeldClose(st);
    InkAppend(Held(st), s);
  }

  lemma InkContinued(done: seq<string>, current: string, s: string)
    ensures Ink(Held(JoinState(done, current + " " + s))) == Ink(Held(JoinState(done, current))) + Ink(s)
  {
    var d := Flatten(done);
    InkAppend(d, current + " " + s);
    InkSpaced(current, s);
    InkAppend(d, current);
  }

  lemma JoinStepInk(st: JoinState, line: string, rx: Patterns)
    ensures Ink(Held(JoinStep(st, line, rx))) == Ink(Held(st)) + Ink(line)
  {
    var s := Strip(line);
    InkStrip(line);
    if s == "" {
      StripEmptyIffBlank(line);
      InkBlank(line);
      assert JoinStep(st, line, rx) == JoinState(Close(st), "");
      InkFlushed(st);
    } else if NewItem(s, rx) || st.current == "" || !Open(st.current) {
      assert JoinStep(st, line, rx) == JoinState(Close(st), s);
      InkStarted(st, s);
    } else {
      assert JoinStep(st, line, rx) == JoinState(st.done, st.current + " " + s);
      InkContinued(st.done, st.current, s);
    }
  }

  lemma {:induction false} JoinFromInk(lines: seq<string>, rx: Patterns)
    ensures Ink(Held(JoinFrom(Start, lines, rx))) == Ink(Flatten(lines))
  {
    if lines != [] {
      var init := lines[..|lines| - 1];
      JoinFromInk(init, rx);
      JoinFromLast(Start, lines, rx);
      JoinStepInk(JoinFrom(Start, init, rx), lines[|lines| - 1], rx);
      InkAppend(Flatten(init), lines[|lines| - 1]);
    }
  }

  /** Joining loses, adds and reorders no text: only whitespace changes. */
  lemma UnitsKeepText(lines: seq<string>, rx: Patterns)
    ensures Ink(Flatten(Units(lines, rx))) == Ink(Flatten(lines))
  {
    JoinFromInk(lines, rx);
    HeldClose(JoinFrom(Start, lines, rx));
  }

  // ---------------------------------------------------------------- section headings

  /** The heading keywords of each section, in the order they are tried. */
  const SectionKeywords: seq<(string, seq<string>)> := [
    ("experience", ["experience", "work experience", "employment", "employment history", "professional experience"]),
    ("education", ["education", "academic", "qualifications", "degrees"]),
    ("skills", ["skills", "technical skills", "competencies", "expertise", "proficiencies", "core competencies"]),
    ("summary", ["summary", "professional summary", "profile", "objective", "about"]),
    ("certifications", ["certifications", "certificates", "licenses", "credentials", "professional certifications"])]

  /** The first section, from the `k`-th on, with a keyword in `low`; `|SectionKeywords|` when there is none. */
  function FirstSection(low: string, k: nat): (j: nat)
    requires k <= |SectionKeywords|
    ensures k <= j <= |SectionKeywords|
    ensures j < |SectionKeywords| ==> MentionsAny(low, SectionKeywords[j].1)
    ensures forall i :: k <= i < j ==> !MentionsAny(low, SectionKeywords[i].1)
    decreases |SectionKeywords| - k
  {
    if k == |SectionKeywords| || MentionsAny(low, SectionKeywords[k].1) then k
    else FirstSection(low, k + 1)
  }

  /**
   * `_identify_section`: the first section, in the order experience,
   * education, skills, summary, certifications, one of whose keywords occurs
   * in the lower-cased line; `None` when no keyword occurs.
   */
  function IdentifySection(text: string): (r: Option<string>)
    ensures r.None? <==> forall i :: 0 <= i < |SectionKeywords| ==> !MentionsAny(Lower(text), SectionKeywords[i].1)
    ensures r.Some? ==>
              exists j :: (0 <= j < |SectionKeywords| && r.value == SectionKeywords[j].0
                           && MentionsAny(Lower(text), SectionKeywords[j].1)
                           && forall i :: 0 <= i < j ==> !MentionsAny(Lower(text), SectionKeywords[i].1))
  {
    var j := FirstSection(Lower(text), 0);
    if j < |SectionKeywords| then Some(SectionKeywords[j].0) else None
  }

  /** One of the five section names. */
  predicate IsSection(name: string) {
    exists j :: 0 <= j < |SectionKeywords| && SectionKeywords[j].0 == name
  }

  // ---------------------------------------------------------------- DOCX paragraphs by section

  /** The sections found so far, the section being read and its lines. */
  datatype Grouping = Grouping(sections: map<string, string>, current: Option<string>, lines: seq<string>)

  /** The sections once the one being read is stored, if it has lines. */
  function Stored(g: Grouping): map<string, string> {
    if g.current.Some? && g.lines != [] then g.sections[g.current.value := Join(g.lines, "\n")] else g.sections
  }

  /** One paragraph: a heading opens its section, other text is added to the open section, if any. */
  function GroupStep(g: Grouping, para: string): Grouping {
    var text := Strip(para);
    if text == "" then g
    else
      match IdentifySection(text)
      case Some(section) => Grouping(Stored(g), Some(section), [])
      case None => if g.current.Some? then Grouping(g.sections, g.current, g.lines + [text]) else g
  }

  function Grouper(): (Grouping, string) -> Grouping {
    (g, para) => GroupStep(g, para)
  }

  const NoSections := Grouping(map[], None, [])

  /** The section texts of the paragraphs, keyed by section name. */
  function Sections(paras: seq<string>): map<string, string> {
    Stored(FoldLeft(NoSections, paras, Grouper()))
  }

  /** The paragraph loop of `_parse_docx` that collects the section texts. */
  method GroupSections(paras: seq<string>) returns (sections: map<string, string>)
    ensures sections == Sections(paras)
  {
    var g := NoSections;
    var i := 0;
    while i < |paras|
      invariant 0 <= i <= |paras|
      invariant g == FoldLeft(NoSections, paras[..i], Grouper())
    {
      FoldLeftNext(NoSections, paras, i, Grouper());
      g := ReadParagraph(g, paras[i]);
      i := i + 1;
    }
    assert paras[..i] == paras;
    sections := Stored(g);
  }

  /** The body of the paragraph loop. */
  method ReadParagraph(g: Grouping, para: string) returns (g': Grouping)
    ensures g' == GroupStep(g, para)
  {
    g' := g;
    var text := Strip(para);
    if text == "" {
      return;
    }
    var section := IdentifySection(text);
    if section.Some? {
      g' := Grouping(Stored(g), section, []);
      return;
    }
    if g.current.Some? {
      g' := Grouping(g.sections, g.current, g.lines + [text]);
    }
  }

  /** Every key is a section name and every stored text is non-empty. */
  predicate GoodGrouping(g: Grouping) {
    (forall k :: k in g.sections ==> IsSection(k) && g.sections[k] != "")
    && (g.current.Some? ==> IsSection(g.current.value))
    && forall k :: 0 <= k < |g.lines| ==> g.lines[k] != ""
  }

  lemma JoinNonEmpty(parts: seq<string>, sep: string)
    requires parts != [] && parts[0] != ""
    ensures Join(parts, sep) != ""
  {
  }

  lemma StoredGood(g: Grouping)
    requires GoodGrouping(g)
    ensures forall k :: k in Stored(g) ==> IsSection(k) && Stored(g)[k] != ""
  {
    if g.current.Some? && g.lines != [] {
      JoinNonEmpty(g.lines, "\n");
    }
  }

  lemma GroupStepGood(g: Grouping, para: string)
    requires GoodGrouping(g)
    ensures GoodGrouping(GroupStep(g, para))
  {
    var text := Strip(para);
    if text != "" {
      var section := IdentifySection(text);
      if section.Some? {
        StoredGood(g);
        var j :| 0 <= j < |SectionKeywords| && section.value == SectionKeywords[j].0;
        assert IsSection(section.value);
      }
    }
  }

  lemma {:induction false} GroupingGood(paras: seq<string>)
    ensures GoodGrouping(FoldLeft(NoSections, paras, Grouper()))
  {
    if paras != [] {
      var init := paras[..|paras| - 1];
      GroupingGood(init);
      GroupStepGood(FoldLeft(NoSections, init, Grouper()), paras[|paras| - 1]);
    }
  }

  /** Only the five section names are keys, and no section text is empty. */
  lemma SectionsSpec(paras: seq<string>)
    ensures forall k :: k in Sections(paras) ==> IsSection(k) && Sections(paras)[k] != ""
  {
    GroupingGood(paras);
    StoredGood(FoldLeft(NoSections, paras, Grouper()));
  }

  /** Text before the first heading belongs to no section. */
  lemma {:induction false} NoHeadingNoSections(paras: seq<string>)
    requires forall k :: 0 <= k < |paras| ==> IdentifySection(Strip(paras[k])).None?
    ensures FoldLeft(NoSections, paras, Grouper()) == NoSections
    ensures Sections(paras) == map[]
  {
    if paras != [] {
      NoHeadingNoSections(paras[..|paras| - 1]);
    }
  }

  // ---------------------------------------------------------------- lines of text

  /** `[l.strip() for l in lines if l.strip()]` */
  function NonBlankLines(lines: seq<string>): (r: seq<string>)
    ensures |r| <= |lines|
    ensures forall k :: 0 <= k < |r| ==> r[k] != "" && !IsSpace(r[k][0]) && !IsSpace(r[k][|r[k]| - 1])
  {
    if lines == [] then []
    else
      var prev := NonBlankLines(lines[..|lines| - 1]);
      var s := Strip(lines[|lines| - 1]);
      if s != "" then prev + [s] else prev
  }

  lemma {:induction false} NonBlankLinesHas(lines: seq<string>, k: int)
    requires 0 <= k < |lines| && Strip(lines[k]) != ""
    ensures NonBlankLines(lines) != []
  {
    if k < |lines| - 1 {
      NonBlankLinesHas(lines[..|lines| - 1], k);
    }
  }

  lemma {:induction false} JoinBlank(parts: seq<string>, sep: string)
    requires forall k :: 0 <= k < |parts| ==> IsBlank(parts[k])
    requires IsBlank(sep)
    ensures IsBlank(Join(parts, sep))
  {
    if |parts| > 1 {
      JoinBlank(parts[1..], sep);
    }
  }

  /** A text that is not blank has a non-blank line. */
  lemma NonBlankText(text: string)
    requires !IsBlank(text)
    ensures NonBlankLines(Split(text, '\n')) != []
  {
    var lines := Split(text, '\n');
    SplitJoin(text, '\n');
    if forall k :: 0 <= k < |lines| ==> IsBlank(lines[k]) {
      JoinBlank(lines, "\n");
      assert false;
    }
    var k :| 0 <= k < |lines| && !IsBlank(lines[k]);
    StripEmptyIffBlank(lines[k]);
    NonBlankLinesHas(lines, k);
  }

  lemma {:induction false} NonBlankLinesOfBlanks(lines: seq<string>)
    requires forall k :: 0 <= k < |lines| ==> IsBlank(lines[k])
    ensures NonBlankLines(lines) == []
  {
    if lines != [] {
      NonBlankLinesOfBlanks(lines[..|lines| - 1]);
      StripEmptyIffBlank(lines[|lines| - 1]);
    }
  }

  /** A blank text has no non-blank line. */
  lemma BlankText(text: string)
    requires IsBlank(text)
    ensures NonBlankLines(Split(text, '\n')) == []
  {
    SplitBlank(text, '\n');
    NonBlankLinesOfBlanks(Split(text, '\n'));
  }

  /** Lines that are already stripped and non-empty are kept as they are. */
  lemma {:induction false} NonBlankLinesOfUnits(lines: seq<string>)
    requires forall k :: 0 <= k < |lines| ==> UnitLine(lines[k])
    ensures NonBlankLines(lines) == lines
  {
    if lines != [] {
      var init, last := lines[..|lines| - 1], lines[|lines| - 1];
      assert forall k :: 0 <= k < |init| ==> init[k] == lines[k];
      NonBlankLinesOfUnits(init);
      StripNoSpace(last);
      assert NonBlankLines(lines) == init + [last];
      assert init + [last] == lines;
    }
  }

  /** A section's text from the DOCX sections when there is one, else the text a pattern found, if any. */
  function SectionText(name: string, sections: map<string, string>, found: Option<string>): (r: Option<string>)
    ensures name in sections ==> r == Some(sections[name])
    ensures name !in sections ==> (r.Some? <==> found.Some? && found.value != "")
  {
    if name in sections then Some(sections[name])
    else if found.Some? && found.value != "" then found
    else None
  }

  // ---------------------------------------------------------------- personal information

  /** The first match of the first pattern that matches at all. */
  function FirstFound(found: seq<seq<string>>): (r: Option<string>)
    ensures r.None? <==> forall k :: 0 <= k < |found| ==> found[k] == []
    ensures r.Some? ==> exists k :: 0 <= k < |found| && found[k] != [] && r.value == found[k][0]
  {
    if found == [] then None
    else if found[0] != [] then Some(found[0][0])
    else
      var r := FirstFound(found[1..]);
      assert forall k :: 1 <= k < |found| ==> found[k] == found[1..][k - 1];
      r
  }

  /** Words that mark a matched "City, ST" as an institution or a company. */
  const NotPlaceWords: seq<string> := ["university", "college", "inc", "llc", "corp"]

  /** The first match that names no institution or company. */
  function FirstPlace(matches: seq<string>): (r: Option<string>)
    ensures r.Some? ==> r.value in matches && !MentionsAny(Lower(r.value), NotPlaceWords)
    ensures r.None? <==> forall k :: 0 <= k < |matches| ==> MentionsAny(Lower(matches[k]), NotPlaceWords)
  {
    if matches == [] then None
    else if !MentionsAny(Lower(matches[0]), NotPlaceWords) then Some(matches[0])
    else
      var r := FirstPlace(matches[1..]);
      assert forall k :: 1 <= k < |matches| ==> matches[k] == matches[1..][k - 1];
      r
  }

  /**
   * The location: the first pattern that matches at all decides, and gives
   * its first match that names no institution or company.
   */
  function LocationOf(found: seq<seq<string>>): (r: Option<string>)
    ensures r.Some? ==> !MentionsAny(Lower(r.value), NotPlaceWords)
    ensures r.Some? ==> exists k :: 0 <= k < |found| && r.value in found[k]
  {
    if found == [] then None
    else if found[0] != [] then FirstPlace(found[0])
    else
      var r := LocationOf(found[1..]);
      assert forall k :: 0 <= k < |found| - 1 ==> found[1..][k] == found[k + 1];
      r
  }

  /** When every match of the first matching pattern names an institution, the later patterns are not consulted. */
  lemma LocationNotRetried(first: seq<string>, later: seq<seq<string>>)
    requires first != [] && forall k :: 0 <= k < |first| ==> MentionsAny(Lower(first[k]), NotPlaceWords)
    ensures LocationOf([first] + later) == None
  {
    assert ([first] + later)[0] == first;
  }

  predicate AsciiLetter(c: char) {
    'A' <= c <= 'Z' || 'a' <= c <= 'z'
  }

  /** `[A-Z][a-zA-Z]+` */
  predicate NameWord(w: string) {
    |w| >= 2 && 'A' <= w[0] <= 'Z' && forall i :: 1 <= i < |w| ==> AsciiLetter(w[i])
  }

  /** `re.match(r'^[A-Z][a-zA-Z]+(\s+[A-Z][a-zA-Z]+)+$', p)`: two or more capitalised words separated by whitespace. */
  predicate TitleCaseName(p: string) {
    && p != [] && !IsSpace(p[0]) && !IsSpace(p[|p| - 1])
    && (forall i :: 0 <= i < |p| ==> AsciiLetter(p[i]) || IsSpace(p[i]))
    && |Words(p)| >= 2
    && forall k :: 0 <= k < |Words(p)| ==> NameWord(Words(p)[k])
  }

  /** `p.isupper()` for ASCII letters: some capital letter and no small one. */
  predicate IsUpper(p: string) {
    (exists i :: 0 <= i < |p| && 'A' <= p[i] <= 'Z') && forall i :: 0 <= i < |p| ==> !('a' <= p[i] <= 'z')
  }

  /**
   * The name: the first header line, when it has at most four words, no
   * '@', no "linkedin" in any case, and is capitalised words or all capitals.
   */
  function NameOf(header: seq<string>): (r: Option<string>)
    ensures r.Some? ==> header != [] && r.value == Strip(header[0])
    ensures r.Some? ==> |Words(r.value)| <= 4 && '@' !in r.value && !Contains(Lower(r.value), "linkedin")
    ensures r.Some? ==> TitleCaseName(r.value) || IsUpper(r.value)
  {
    if header == [] then None
    else
      var p := Strip(header[0]);
      if |Words(p)| <= 4 && '@' !in p && !Contains(Lower(p), "linkedin") && (TitleCaseName(p) || IsUpper(p)) then Some(p)
      else None
  }

  /** A one-word name is accepted only in capitals. */
  lemma OneWordName(w: string)
    requires Words(w) == [w] && exists i :: 0 <= i < |w| && 'a' <= w[i] <= 'z'
    ensures NameOf([w]) == None
  {
  }

  /** `_extract_personal_info` over the first header lines. */
  function PersonalInfoOf(header: seq<string>, rx: Patterns): PersonalInfo {
    var full := Join(header, " ");
    var emails := rx.emails(full);
    PersonalInfo(
      name := NameOf(header),
      email := if emails != [] then Some(emails[0]) else None,
      phone := FirstFound(rx.phones(full)),
      location := LocationOf(rx.locations(full)),
      linkedin := FirstFound(rx.linkedins(full)))
  }

  /** The pattern loop of `_extract_personal_info` for phones and LinkedIn addresses. */
  method FindFirst(found: seq<seq<string>>) returns (r: Option<string>)
    ensures r == FirstFound(found)
  {
    var i := 0;
    while i < |found|
      invariant 0 <= i <= |found|
      invariant FirstFound(found[i..]) == FirstFound(found)
    {
      assert found[i..][0] == found[i] && found[i..][1..] == found[i + 1..];
      if found[i] != [] {
        return Some(found[i][0]);
      }
      i := i + 1;
    }
    return None;
  }

  /** The inner loop over the matches of one location pattern. */
  method FindPlace(matches: seq<string>) returns (r: Option<string>)
    ensures r == FirstPlace(matches)
  {
    var i := 0;
    while i < |matches|
      invariant 0 <= i <= |matches|
      invariant FirstPlace(matches[i..]) == FirstPlace(matches)
    {
      assert matches[i..][0] == matches[i] && matches[i..][1..] == matches[i + 1..];
      if !MentionsAny(Lower(matches[i]), NotPlaceWords) {
        return Some(matches[i]);
      }
      i := i + 1;
    }
    return None;
  }

  /** The location loop of `_extract_personal_info`: it stops at the first pattern with matches. */
  method FindLocation(found: seq<seq<string>>) returns (r: Option<string>)
    ensures r == LocationOf(found)
  {
    var i := 0;
    while i < |found|
      invariant 0 <= i <= |found|
      invariant LocationOf(found[i..]) == LocationOf(found)
    {
      assert found[i..][0] == found[i] && found[i..][1..] == found[i + 1..];
      if found[i] != [] {
        r := FindPlace(found[i]);
        return;
      }
      i := i + 1;
    }
    return None;
  }

  /** `_extract_personal_info` */
  method ExtractPersonalInfo(header: seq<string>, rx: Patterns) returns (info: PersonalInfo)
    ensures info == PersonalInfoOf(header, rx)
  {
    var full := Join(header, " ");
    var emails := rx.emails(full);
    var email := if emails != [] then Some(emails[0]) else None;
    var phone := FindFirst(rx.phones(full));
    var linkedin := FindFirst(rx.linkedins(full));
    var location := FindLocation(rx.locations(full));
    info := PersonalInfo(NameOf(header), email, phone, location, linkedin);
  }

  // ---------------------------------------------------------------- summary

  /** The first candidate shorter than 2000 characters. */
  function FirstShort(candidates: seq<string>): (r: Option<string>)
    ensures r.Some? ==> r.value in candidates && |r.value| < 2000
    ensures r.None? <==> forall k :: 0 <= k < |candidates| ==> |candidates[k]| >= 2000
  {
    if candidates == [] then None
    else if |candidates[0]| < 2000 then Some(candidates[0])
    else
      var r := FirstShort(candidates[1..]);
      assert forall k :: 1 <= k < |candidates| ==> candidates[k] == candidates[1..][k - 1];
      r
  }

  /** `_extract_summary`: the DOCX summary section, else the first pattern match under 2000 characters. */
  function SummaryOf(text: string, sections: map<string, string>, rx: Patterns): (r: Option<string>)
    ensures "summary" !in sections && r.Some? ==> |r.value| < 2000 && r.value in rx.summaryMatches(text)
  {
    if "summary" in sections then Some(sections["summary"]) else FirstShort(rx.summaryMatches(text))
  }

  // ---------------------------------------------------------------- experience

  /** The line with a leading '•', '-' or '*' and the whitespace after it removed, stripped. */
  function DropBullet(line: string): (r: string)
    ensures |r| <= |line|
    ensures forall c :: c in r ==> c in line
  {
    StripWithin(line);
    if IsBullet(line) then
      StripWithin(line[1..]);
      Strip(line[1..])
    else Strip(line)
  }

  /** A line that `^[•\-\*]` matches. */
  predicate IsBullet(line: string) {
    line != [] && (line[0] == '•' || line[0] == '-' || line[0] == '*')
  }

  /** The lines read so far: the finished entries and the entry being read. */
  datatype Segmenting = Segmenting(entries: seq<seq<string>>, current: seq<string>)

  const NoEntries := Segmenting([], [])

  /** Not a bullet and longer than ten characters. */
  predicate MayBeHeader(line: string) {
    !StartsWith(line, "•") && !StartsWith(line, "-") && |line| > 10
  }

  /** The finished entries followed by the entry being read, if it has lines. */
  function Flush(sg: Segmenting): seq<seq<string>> {
    if sg.current != [] then sg.entries + [sg.current] else sg.entries
  }

  /** One iteration of the line loop of `_extract_experience`: a dated line opens a new entry. */
  function SegmentStep(sg: Segmenting, line: string, rx: Patterns): Segmenting {
    var l := Strip(line);
    if l == "" then sg
    else if rx.dateHeader(l) && sg.current != [] then Segmenting(sg.entries + [sg.current], [l])
    else if MayBeHeader(l) && rx.dateHeader(l) then Segmenting(Flush(sg), [l])
    else Segmenting(sg.entries, sg.current + [l])
  }

  function Segmenter(rx: Patterns): (Segmenting, string) -> Segmenting {
    (sg: Segmenting, line: string) => SegmentStep(sg, line, rx)
  }

  /** The entries of `_extract_experience`, each a list of stripped lines. */
  function Segments(lines: seq<string>, rx: Patterns): seq<seq<string>> {
    Flush(FoldLeft(NoEntries, lines, Segmenter(rx)))
  }

  /** The test for a header that is "not a bullet and long" never changes the outcome: every dated line opens an entry. */
  lemma SegmentStepRule(sg: Segmenting, line: string, rx: Patterns)
    ensures SegmentStep(sg, line, rx) ==
              if Strip(line) == "" then sg
              else if rx.dateHeader(Strip(line)) then Segmenting(Flush(sg), [Strip(line)])
              else Segmenting(sg.entries, sg.current + [Strip(line)])
  {
    var l := Strip(line);
    if l != "" && rx.dateHeader(l) && sg.current == [] {
      assert sg.current + [l] == [l];
    }
  }

  /** Every line is stripped and non-empty, and only the first can carry a date. */
  predicate GoodEntry(g: seq<string>, rx: Patterns) {
    (forall i :: 0 <= i < |g| ==> UnitLine(g[i])) && forall i :: 0 < i < |g| ==> !rx.dateHeader(g[i])
  }

  predicate GoodSegmenting(sg: Segmenting, rx: Patterns) {
    && (forall k :: 0 <= k < |sg.entries| ==> sg.entries[k] != [] && GoodEntry(sg.entries[k], rx))
    && (forall k :: 0 < k < |sg.entries| ==> rx.dateHeader(sg.entries[k][0]))
    && GoodEntry(sg.current, rx)
    && (sg.entries != [] ==> sg.current != [] && rx.dateHeader(sg.current[0]))
  }

  lemma StripUnitLine(line: string)
    requires '\n' !in line && Strip(line) != ""
    ensures UnitLine(Strip(line))
  {
    StripWithin(line);
  }

  lemma GoodOpened(entries: seq<seq<string>>, current: seq<string>, l: string, rx: Patterns)
    requires GoodSegmenting(Segmenting(entries, current), rx) && current != []
    requires UnitLine(l) && rx.dateHeader(l)
    ensures GoodSegmenting(Segmenting(entries + [current], [l]), rx)
  {
  }

  lemma GoodFirst(l: string, rx: Patterns)
    requires UnitLine(l)
    ensures GoodSegmenting(Segmenting([], [l]), rx)
  {
  }

  lemma GoodAppended(entries: seq<seq<string>>, current: seq<string>, l: string, rx: Patterns)
    requires GoodSegmenting(Segmenting(entries, current), rx)
    requires UnitLine(l) && (current != [] ==> !rx.dateHeader(l))
    ensures GoodSegmenting(Segmenting(entries, current + [l]), rx)
  {
    var c := current + [l];
    assert forall i :: 0 <= i < |current| ==> c[i] == current[i];
  }

  lemma SegmentStepGood(sg: Segmenting, line: string, rx: Patterns)
    requires GoodSegmenting(sg, rx) && '\n' !in line
    ensures GoodSegmenting(SegmentStep(sg, line, rx), rx)
  {
    var l := Strip(line);
    if l != "" {
      StripUnitLine(line);
      if rx.dateHeader(l) && sg.current != [] {
        assert SegmentStep(sg, line, rx) == Segmenting(sg.entries + [sg.current], [l]);
        GoodOpened(sg.entries, sg.current, l, rx);
      } else if MayBeHeader(l) && rx.dateHeader(l) {
        assert SegmentStep(sg, line, rx) == Segmenting([], [l]);
        GoodFirst(l, rx);
      } else {
        assert SegmentStep(sg, line, rx) == Segmenting(sg.entries, sg.current + [l]);
        GoodAppended(sg.entries, sg.current, l, rx);
      }
    }
  }

  /** A step adds the stripped line, if any, to the flattened entries. */
  lemma SegmentStepLines(sg: Segmenting, line: string, rx: Patterns)
    ensures Flatten(Flush(SegmentStep(sg, line, rx))) == Flatten(Flush(sg)) + (if Strip(line) != "" then [Strip(line)] else [])
  {
    var l := Strip(line);
    if l == "" {
      assert Flatten(Flush(sg)) + [] == Flatten(Flush(sg));
    } else if rx.dateHeader(l) && sg.current != [] {
      FlattenSnoc(sg.entries + [sg.current], [l]);
    } else if MayBeHeader(l) && rx.dateHeader(l) {
      FlattenSnoc(sg.entries, [l]);
    } else {
      FlattenSnoc(sg.entries, sg.current + [l]);
      if sg.current != [] {
        FlattenSnoc(sg.entries, sg.current);
      } else {
        assert sg.current + [l] == [l];
      }
    }
  }

  lemma {:induction false} SegmentingFacts(lines: seq<string>, rx: Patterns)
    requires forall k :: 0 <= k < |lines| ==> '\n' !in lines[k]
    ensures GoodSegmenting(FoldLeft(NoEntries, lines, Segmenter(rx)), rx)
    ensures Flatten(Flush(FoldLeft(NoEntries, lines, Segmenter(rx)))) == NonBlankLines(lines)
  {
    if lines != [] {
      var init := lines[..|lines| - 1];
      assert forall k :: 0 <= k < |init| ==> init[k] == lines[k];
      SegmentingFacts(init, rx);
      var sg := FoldLeft(NoEntries, init, Segmenter(rx));
      assert FoldLeft(NoEntries, lines, Segmenter(rx)) == SegmentStep(sg, lines[|lines| - 1], rx);
      SegmentStepGood(sg, lines[|lines| - 1], rx);
      SegmentStepLines(sg, lines[|lines| - 1], rx);
    }
  }

  /** Non-empty entries of stripped lines where only a first line carries a date, and every entry after the first starts with one. */
  predicate Partitioned(groups: seq<seq<string>>, rx: Patterns) {
    && (forall k :: 0 <= k < |groups| ==> groups[k] != [] && GoodEntry(groups[k], rx))
    && (forall k :: 0 < k < |groups| ==> rx.dateHeader(groups[k][0]))
  }

  lemma FlushPartitioned(sg: Segmenting, rx: Patterns)
    requires GoodSegmenting(sg, rx)
    ensures Partitioned(Flush(sg), rx)
  {
    if sg.current != [] {
      var g := sg.entries + [sg.current];
      assert forall k :: 0 <= k < |sg.entries| ==> g[k] == sg.entries[k];
    }
  }

  /**
   * The entries partition the non-blank lines, in order: each entry is a
   * non-empty run of stripped lines, only its first line can carry a date,
   * and every entry after the first starts with a dated line.
   */
  lemma SegmentsSpec(lines: seq<string>, rx: Patterns)
    requires forall k :: 0 <= k < |lines| ==> '\n' !in lines[k]
    ensures Flatten(Segments(lines, rx)) == NonBlankLines(lines)
    ensures Partitioned(Segments(lines, rx), rx)
  {
    SegmentingFacts(lines, rx);
    FlushPartitioned(FoldLeft(NoEntries, lines, Segmenter(rx)), rx);
  }

  /** The entry-splitting loop of `_extract_experience`. */
  method SegmentLines(lines: seq<string>, rx: Patterns) returns (entries: seq<seq<string>>)
    ensures entries == Segments(lines, rx)
  {
    var sg := NoEntries;
    var i := 0;
    while i < |lines|
      invariant 0 <= i <= |lines|
      invariant sg == FoldLeft(NoEntries, lines[..i], Segmenter(rx))
    {
      FoldLeftNext(NoEntries, lines, i, Segmenter(rx));
      sg := Segment(sg, lines[i], rx);
      i := i + 1;
    }
    assert lines[..i] == lines;
    entries := if sg.current != [] then sg.entries + [sg.current] else sg.entries;
  }

  /** The body of the entry-splitting loop, for one line. */
  method Segment(sg: Segmenting, line: string, rx: Patterns) returns (sg': Segmenting)
    ensures sg' == SegmentStep(sg, line, rx)
  {
    var l := Strip(line);
    if l == "" {
      return sg;
    }
    var isHeader := rx.dateHeader(l);
    var isPotentialHeader := !StartsWith(l, "•") && !StartsWith(l, "-") && |l| > 10;
    if isHeader && sg.current != [] {
      sg' := Segmenting(sg.entries + [sg.current], [l]);
    } else if isPotentialHeader && isHeader {
      var entries := sg.entries;
      if sg.current != [] {
        entries := entries + [sg.current];
      }
      sg' := Segmenting(entries, [l]);
    } else {
      sg' := Segmenting(sg.entries, sg.current + [l]);
    }
  }

  /** The bullets of an entry: its bullet lines with more than five characters after the marker. */
  function BulletsOf(lines: seq<string>): (r: seq<BulletPoint>)
    ensures |r| <= |lines|
    ensures forall k :: 0 <= k < |r| ==> |r[k].text| > 5 && r[k].formatting.None?
  {
    if lines == [] then []
    else
      var prev := BulletsOf(lines[..|lines| - 1]);
      var l := lines[|lines| - 1];
      if IsBullet(l) && |DropBullet(l)| > 5 then prev + [BulletPoint(DropBullet(l), None)] else prev
  }

  /** The text before the first '|', stripped. */
  function BeforePipe(line: string): string {
    var i := Find(line, "|");
    if i >= 0 then Strip(line[..i]) else Strip(line)
  }

  lemma NoPipeBefore(line: string, i: int)
    requires 0 <= i <= |line| && forall j :: 0 <= j < i ==> !StartsWith(line[j..], "|")
    ensures '|' !in line[..i]
  {
    forall j | 0 <= j < i ensures line[j] != '|' {
      assert line[j..][..1] == [line[j]];
    }
  }

  /** The company cut at a '|' holds no '|'. */
  lemma BeforePipeSpec(line: string)
    ensures '|' !in BeforePipe(line)
    ensures forall c :: c in BeforePipe(line) ==> c in line
  {
    var i := Find(line, "|");
    if i >= 0 {
      NoPipeBefore(line, i);
      StripWithin(line[..i]);
    } else {
      if '|' in line {
        var j :| 0 <= j < |line| && line[j] == '|';
        ContainsAt(line, "|", j);
      }
      StripWithin(line);
    }
  }

  /**
   * Company and title of an entry: when the second line is not a bullet, a
   * first line with '|' and a year gives the company before the '|' and the
   * second line as title; otherwise the first line is the title and the
   * second the company.  An entry whose second line is a bullet uses its
   * first line for both.
   */
  function CompanyAndTitle(lines: seq<string>, rx: Patterns): (r: (string, string))
    requires lines != []
    ensures |lines| == 1 || StartsWith(lines[1], "•") || StartsWith(lines[1], "-") ==> r == (lines[0], lines[0])
    ensures r.0 == lines[0] || r.0 == BeforePipe(lines[0]) || (|lines| > 1 && r.0 == lines[1])
  {
    var first := lines[0];
    if |lines| > 1 && !StartsWith(lines[1], "•") && !StartsWith(lines[1], "-") then
      if rx.pipeYear(first) then (BeforePipe(first), lines[1]) else (lines[1], first)
    else (first, first)
  }

  /** One entry of `_extract_experience`; entries without bullets are dropped. */
  function EntryOf(entryText: string, rx: Patterns): (r: Option<ExperienceEntry>)
    ensures r.Some? <==> BulletsOf(NonBlankLines(Split(entryText, '\n'))) != []
    ensures r.Some? ==> r.value.bullets == BulletsOf(NonBlankLines(Split(entryText, '\n')))
  {
    var lines := NonBlankLines(Split(entryText, '\n'));
    var bullets := BulletsOf(lines);
    if lines == [] || bullets == [] then None
    else
      var ct := CompanyAndTitle(lines, rx);
      var dates := rx.dateRange(entryText);
      Some(ExperienceEntry(ct.0, ct.1, None,
                           if dates.Some? then Some(dates.value.0) else None,
                           if dates.Some? then Some(dates.value.1) else None,
                           bullets))
  }

  /** Joining an entry's lines and splitting them again gives the entry back, so its own lines decide it. */
  lemma EntryOfSegment(g: seq<string>, rx: Patterns)
    requires g != [] && forall k :: 0 <= k < |g| ==> UnitLine(g[k])
    ensures EntryOf(Join(g, "\n"), rx).Some? <==> BulletsOf(g) != []
    ensures EntryOf(Join(g, "\n"), rx).Some? ==>
              var e := EntryOf(Join(g, "\n"), rx).value;
              e.bullets == BulletsOf(g) && (e.company, e.title) == CompanyAndTitle(g, rx)
  {
    JoinSplit(g, '\n');
    NonBlankLinesOfUnits(g);
  }

  function EntryReader(rx: Patterns): seq<string> -> Option<ExperienceEntry> {
    (g: seq<string>) => EntryOf(Join(g, "\n"), rx)
  }

  /** The entries kept, in order. */
  function EntriesOf(groups: seq<seq<string>>, rx: Patterns): seq<ExperienceEntry> {
    FilterMap(groups, EntryReader(rx))
  }

  /** `_extract_experience` */
  function ExperienceOf(text: string, sections: map<string, string>, rx: Patterns): seq<ExperienceEntry> {
    match SectionText("experience", sections, rx.experienceMatch(text))
    case None => []
    case Some(t) => EntriesOf(Segments(Split(t, '\n'), rx), rx)
  }

  /** Every entry kept has a bullet, and every bullet more than five characters. */
  lemma EntriesSpec(groups: seq<seq<string>>, rx: Patterns)
    ensures |EntriesOf(groups, rx)| <= |groups|
    ensures forall e :: e in EntriesOf(groups, rx) ==> e.bullets != [] && forall b :: b in e.bullets ==> |b.text| > 5
  {
    FilterMapFrom(groups, EntryReader(rx));
    forall e | e in EntriesOf(groups, rx) ensures e.bullets != [] && forall b :: b in e.bullets ==> |b.text| > 5 {
      var g :| g in groups && EntryReader(rx)(g) == Some(e);
      assert EntryOf(Join(g, "\n"), rx) == Some(e);
    }
  }

  /**
   * Every experience entry has a bullet, no text gives more entries than
   * non-blank lines, and without an experience section there are none.
   */
  lemma ExperienceSpec(text: string, sections: map<string, string>, rx: Patterns)
    ensures forall e :: e in ExperienceOf(text, sections, rx) ==> e.bullets != []
    ensures SectionText("experience", sections, rx.experienceMatch(text)).None? ==> ExperienceOf(text, sections, rx) == []
    ensures SectionText("experience", sections, rx.experienceMatch(text)).Some? ==>
              |ExperienceOf(text, sections, rx)| <= |NonBlankLines(Split(SectionText("experience", sections, rx.experienceMatch(text)).value, '\n'))|
  {
    match SectionText("experience", sections, rx.experienceMatch(text))
    case None =>
    case Some(t) =>
      var lines := Split(t, '\n');
      SegmentsSpec(lines, rx);
      assert Partitioned(Segments(lines, rx), rx);
      FlattenLength(Segments(lines, rx));
      EntriesSpec(Segments(lines, rx), rx);
  }

  /** The entry-building loop of `_extract_experience`. */
  method BuildEntries(groups: seq<seq<string>>, rx: Patterns) returns (r: seq<ExperienceEntry>)
    ensures r == EntriesOf(groups, rx)
  {
    r := FilterMapLoop(groups, EntryReader(rx));
  }

  /** `_extract_experience` */
  method ExtractExperience(text: string, sections: map<string, string>, rx: Patterns) returns (r: seq<ExperienceEntry>)
    ensures r == ExperienceOf(text, sections, rx)
  {
    var expText := SectionText("experience", sections, rx.experienceMatch(text));
    if expText.None? {
      return [];
    }
    var groups := SegmentLines(Split(expText.value, '\n'), rx);
    r := BuildEntries(groups, rx);
  }

  // ---------------------------------------------------------------- education

  /** The degree words, lower-cased; a line that mentions none is not an education entry. */
  const DegreeCues: seq<string> :=
    ["master", "bachelor", "phd", "doctor", "mba", "ms", "bs", "ba", "associate", "diploma", "certificate", "program"]

  const InstitutionWords: seq<string> := ["University", "College", "Institute", "Academy", "School"]

  /** `[p.strip() for p in parts]` */
  function StripAll(parts: seq<string>): (r: seq<string>)
    ensures |r| == |parts|
    ensures forall k :: 0 <= k < |r| ==> r[k] == Strip(parts[k])
  {
    seq(|parts|, k requires 0 <= k < |parts| => Strip(parts[k]))
  }

  function TrimCommaStart(s: string): (r: string)
    ensures |r| <= |s| && r == s[|s| - |r|..]
    ensures r == [] || r[0] != ','
  {
    if s != [] && s[0] == ',' then TrimCommaStart(s[1..]) else s
  }

  function TrimCommaEnd(s: string): (r: string)
    ensures |r| <= |s| && r == s[..|r|]
    ensures r == [] || r[|r| - 1] != ','
  {
    if s != [] && s[|s| - 1] == ',' then TrimCommaEnd(s[..|s| - 1]) else s
  }

  /** `s.strip(',')` */
  function StripCommas(s: string): string {
    TrimCommaEnd(TrimCommaStart(s))
  }

  /** The first part naming a school, stripped. */
  function FirstInstitution(parts: seq<string>): (r: Option<string>)
    ensures r.Some? ==> exists k :: 0 <= k < |parts| && MentionsAny(parts[k], InstitutionWords) && r.value == Strip(parts[k])
    ensures r.None? <==> forall k :: 0 <= k < |parts| ==> !MentionsAny(parts[k], InstitutionWords)
  {
    if parts == [] then None
    else if MentionsAny(parts[0], InstitutionWords) then Some(Strip(parts[0]))
    else
      assert forall k :: 0 <= k < |parts| - 1 ==> parts[1..][k] == parts[k + 1];
      FirstInstitution(parts[1..])
  }

  /** The school of an education line without a school word: the second-to-last part when the line is dated and has three or more parts, else the last, with dates removed. */
  function FallbackInstitution(parts: seq<string>, dated: bool, rx: Patterns): string
    requires parts != []
  {
    if |parts| > 1 then
      var candidate := if dated && |parts| > 2 then parts[|parts| - 2] else parts[|parts| - 1];
      StripCommas(Strip(rx.scrubDates(candidate)))
    else ""
  }

  /** A line of the education section that starts with a skills, technical or certification heading. */
  predicate OtherHeading(line: string) {
    StartsWith(Lower(line), "skills") || StartsWith(Lower(line), "technical") || StartsWith(Lower(line), "certification")
  }

  /**
   * One line of `_extract_education`: a line of five or more characters,
   * not another heading, that mentions a degree word, split on commas into
   * the degree and the school.
   */
  function EducationLine(raw: string, rx: Patterns): (r: Option<EducationEntry>)
    ensures r.Some? ==> |DropBullet(Strip(raw))| >= 5 && !OtherHeading(DropBullet(Strip(raw)))
    ensures r.Some? ==> MentionsAny(Lower(DropBullet(Strip(raw))), DegreeCues)
    ensures r.Some? ==> r.value.institution != "" && ',' !in r.value.degree
    ensures r.Some? ==> r.value.degree == Strip(Split(DropBullet(Strip(raw)), ',')[0])
    ensures r.Some? ==> r.value.graduationDate == rx.graduationDate(DropBullet(Strip(raw)))
  {
    var l := Strip(raw);
    if l == "" then None
    else
      var line := DropBullet(l);
      if line == "" || |line| < 5 || OtherHeading(line) || !MentionsAny(Lower(line), DegreeCues) then None
      else
        var grad := rx.graduationDate(line);
        var parts := StripAll(Split(line, ','));
        var degree := parts[0];
        var institution :=
          match FirstInstitution(parts)
          case Some(p) => p
          case None => FallbackInstitution(parts, Truthy(grad), rx);
        StripWithin(Split(line, ',')[0]);
        if institution != "" || degree != "" then
          Some(EducationEntry(if institution != "" then institution else "Unknown", degree, None, None, grad))
        else None
  }

  function EducationReader(rx: Patterns): string -> Option<EducationEntry> {
    (raw: string) => EducationLine(raw, rx)
  }

  /** The education entries of some lines. */
  function EducationFrom(lines: seq<string>, rx: Patterns): seq<EducationEntry> {
    FilterMap(lines, EducationReader(rx))
  }

  /** Every education entry names a school, or "Unknown", and its degree holds no comma. */
  lemma EducationFromSpec(lines: seq<string>, rx: Patterns)
    ensures |EducationFrom(lines, rx)| <= |lines|
    ensures forall e :: e in EducationFrom(lines, rx) ==> e.institution != "" && ',' !in e.degree
  {
    FilterMapFrom(lines, EducationReader(rx));
    forall e | e in EducationFrom(lines, rx) ensures e.institution != "" && ',' !in e.degree {
      var raw :| raw in lines && EducationReader(rx)(raw) == Some(e);
      assert EducationLine(raw, rx) == Some(e);
    }
  }

  /** A line without a degree word adds no education entry. */
  lemma EducationNeedsDegree(before: seq<string>, line: string, rx: Patterns)
    requires !MentionsAny(Lower(DropBullet(Strip(line))), DegreeCues)
    ensures EducationFrom(before + [line], rx) == EducationFrom(before, rx)
  {
    FilterMapNext(before + [line], |before|, EducationReader(rx));
    assert (before + [line])[..|before| + 1] == before + [line];
    assert (before + [line])[..|before|] == before;
    assert EducationLine(line, rx).None?;
  }

  /** `_extract_education` */
  function EducationOf(text: string, sections: map<string, string>, rx: Patterns): seq<EducationEntry> {
    match SectionText("education", sections, rx.educationMatch(text))
    case None => []
    case Some(t) => EducationFrom(Split(t, '\n'), rx)
  }

  /** `_extract_education` */
  method ExtractEducation(text: string, sections: map<string, string>, rx: Patterns) returns (r: seq<EducationEntry>)
    ensures r == EducationOf(text, sections, rx)
  {
    var eduText := SectionText("education", sections, rx.educationMatch(text));
    if eduText.None? {
      return [];
    }
    r := EducationLines(Split(eduText.value, '\n'), rx);
  }

  /** The line loop of `_extract_education`. */
  method EducationLines(lines: seq<string>, rx: Patterns) returns (r: seq<EducationEntry>)
    ensures r == EducationFrom(lines, rx)
  {
    r := FilterMapLoop(lines, EducationReader(rx));
  }

  // ---------------------------------------------------------------- skills

  /** A skills line holding one of these is education, not skills. */
  const EducationWords: seq<string> := ["University", "College", "Master", "Bachelor", "Expected", "Degree"]

  /** A skill holding one of these is dropped. */
  const NotSkillWords: seq<string> := ["University", "College", "Master", "Bachelor", "Expected"]

  /** `re.sub(r'^(?:Certifications?:?\s*)', '', s, flags=re.IGNORECASE)`: a suffix of the item. */
  function DropCertLabel(s: string): (r: string)
    ensures |r| <= |s| && r == s[|s| - |r|..]
  {
    if |s| >= 13 && Lower(s[..13]) == "certification" then
      var n := if |s| > 13 && (s[13] == 's' || s[13] == 'S') then 14 else 13;
      var m := if |s| > n && s[n] == ':' then n + 1 else n;
      var r := TrimStart(s[m..]);
      assert r == s[m..][|s[m..]| - |r|..] == s[|s| - |r|..];
      r
    else s
  }

  lemma SuffixWithin(s: string, r: string)
    requires |r| <= |s| && r == s[|s| - |r|..]
    ensures forall c :: c in r ==> c in s
  {
    forall c | c in r ensures c in s {
      var i :| 0 <= i < |r| && r[i] == c;
      assert s[|s| - |r| + i] == c;
    }
  }

  /** `line.replace(';', ',')`, so that splitting on ',' splits on both. */
  function SemicolonsToCommas(s: string): (r: string)
    ensures |r| == |s| && ';' !in r
    ensures forall i :: 0 <= i < |s| ==> r[i] == if s[i] == ';' then ',' else s[i]
  {
    seq(|s|, i requires 0 <= i < |s| => if s[i] == ';' then ',' else s[i])
  }

  /** A skill as `_extract_skills` keeps it. */
  predicate GoodSkill(skill: string, rx: Patterns) {
    && 1 < |skill| < 50
    && ',' !in skill && ';' !in skill
    && !rx.certificationWord(skill)
    && !MentionsAny(skill, NotSkillWords)
  }

  /** One comma- or semicolon-separated item of a skills line. */
  function ItemSkill(item: string, rx: Patterns): (r: Option<string>)
    ensures r.Some? ==> 1 < |r.value| < 50 && !rx.certificationWord(r.value) && !MentionsAny(r.value, NotSkillWords)
    ensures r.Some? ==> forall c :: c in r.value ==> c in item
  {
    var skill := DropCertLabel(Strip(item));
    StripWithin(item);
    SuffixWithin(Strip(item), skill);
    if rx.certificationWord(skill) then None
    else if skill != "" && 1 < |skill| < 50 && !MentionsAny(skill, NotSkillWords) then Some(skill)
    else None
  }

  /** The skills of the items of one line. */
  function ItemSkills(items: seq<string>, rx: Patterns): (r: seq<string>)
    requires forall k :: 0 <= k < |items| ==> ',' !in items[k] && ';' !in items[k]
    ensures forall k :: 0 <= k < |r| ==> GoodSkill(r[k], rx)
    ensures |r| <= |items|
  {
    if items == [] then []
    else
      var prev := ItemSkills(items[..|items| - 1], rx);
      match ItemSkill(items[|items| - 1], rx)
      case Some(x) => prev + [x]
      case None => prev
  }

  /** A line of the skills section that is only the "& Certifications" tail of a heading. */
  predicate CertificationsTail(line: string) {
    StartsWith(line, "&") || Lower(line) == "certifications" || Lower(line) == "& certifications"
  }

  /** The skills of one line: none from a blank, education or certification line. */
  function LineSkills(raw: string, rx: Patterns): (r: seq<string>)
    ensures forall k :: 0 <= k < |r| ==> GoodSkill(r[k], rx)
    ensures MentionsAny(Strip(raw), EducationWords) || rx.certificationLine(Strip(raw)) ==> r == []
  {
    var l := Strip(raw);
    if l == "" || MentionsAny(l, EducationWords) || rx.certificationLine(l) then []
    else
      var line := DropBullet(l);
      if CertificationsTail(line) then []
      else
        var items := Split(SemicolonsToCommas(line), ',');
        SplitWithin(SemicolonsToCommas(line), ',');
        ItemSkills(items, rx)
  }

  function SkillReader(rx: Patterns): string -> seq<string> {
    (raw: string) => LineSkills(raw, rx)
  }

  /** The skills of some lines, line by line. */
  function SkillsFrom(lines: seq<string>, rx: Patterns): seq<string> {
    FlatMap(lines, SkillReader(rx))
  }

  /** `_extract_skills`: the section text is cut at an education or certifications heading first. */
  function SkillsOf(text: string, sections: map<string, string>, rx: Patterns): seq<string> {
    match SectionText("skills", sections, rx.skillsMatch(text))
    case None => []
    case Some(t) => SkillsFrom(Split(rx.cutAtHeading(t), '\n'), rx)
  }

  /**
   * Every skill has 2 to 49 characters, holds no ',' or ';', no certification
   * word and none of University, College, Master, Bachelor or Expected.
   */
  lemma SkillsSpec(text: string, sections: map<string, string>, rx: Patterns)
    ensures forall x :: x in SkillsOf(text, sections, rx) ==> GoodSkill(x, rx)
  {
    match SectionText("skills", sections, rx.skillsMatch(text))
    case None =>
    case Some(t) =>
      var lines := Split(rx.cutAtHeading(t), '\n');
      FlatMapFrom(lines, SkillReader(rx));
      forall x | x in SkillsFrom(lines, rx) ensures GoodSkill(x, rx) {
        var raw :| raw in lines && x in SkillReader(rx)(raw);
        assert x in LineSkills(raw, rx);
      }
  }

  /** `_extract_skills` */
  method ExtractSkills(text: string, sections: map<string, string>, rx: Patterns) returns (r: seq<string>)
    ensures r == SkillsOf(text, sections, rx)
  {
    var skillsText := SectionText("skills", sections, rx.skillsMatch(text));
    if skillsText.None? {
      return [];
    }
    r := SkillLines(Split(rx.cutAtHeading(skillsText.value), '\n'), rx);
  }

  /** The line loop of `_extract_skills`. */
  method SkillLines(lines: seq<string>, rx: Patterns) returns (r: seq<string>)
    ensures r == SkillsFrom(lines, rx)
  {
    r := [];
    var i := 0;
    while i < |lines|
      invariant 0 <= i <= |lines|
      invariant r == FlatMap(lines[..i], SkillReader(rx))
    {
      FlatMapNext(lines, i, SkillReader(rx));
      r := r + LineSkills(lines[i], rx);
      i := i + 1;
    }
    assert lines[..i] == lines;
  }

  // ---------------------------------------------------------------- certifications

  /** A line that opens the education, skills or experience section. */
  predicate NextHeading(line: string) {
    StartsWith(Lower(line), "education") || StartsWith(Lower(line), "skills") || StartsWith(Lower(line), "experience")
  }

  /** How the certifications loop reads one line: blank or too short or long, a heading that ends the section, or a certification. */
  function ReadCertLine(raw: string): (r: Scan<string>)
    ensures r.Keep? ==> 3 < |r.value| < 150 && !NextHeading(r.value)
  {
    var l := Strip(raw);
    if l == "" then Skip
    else
      var line := DropBullet(l);
      if NextHeading(line) then Stop
      else if 3 < |line| < 150 then Keep(line)
      else Skip
  }

  function CertReader(): string -> Scan<string> {
    (raw: string) => ReadCertLine(raw)
  }

  /** The certification lines up to the next heading. */
  function CertificationsFrom(lines: seq<string>): seq<string> {
    ScanUntilStop(lines, CertReader())
  }

  /** Every certification has 4 to 149 characters, is not a heading, and comes from a line. */
  lemma CertificationsFromSpec(lines: seq<string>)
    ensures |CertificationsFrom(lines)| <= |lines|
    ensures forall c :: c in CertificationsFrom(lines) ==> 3 < |c| < 150 && !NextHeading(c)
  {
    ScanKept(lines, CertReader());
    forall c | c in CertificationsFrom(lines) ensures 3 < |c| < 150 && !NextHeading(c) {
      var raw :| raw in lines && CertReader()(raw) == Keep(c);
      assert ReadCertLine(raw) == Keep(c);
    }
  }

  /** Nothing after a heading line counts, whatever it holds. */
  lemma CertificationsStopAtHeading(lines: seq<string>, i: int)
    requires 0 <= i < |lines| && Strip(lines[i]) != "" && NextHeading(DropBullet(Strip(lines[i])))
    ensures CertificationsFrom(lines) == CertificationsFrom(lines[..i])
  {
    assert CertReader()(lines[i]) == Stop;
    ScanStops(lines, i, CertReader());
  }

  /** `_extract_certifications` */
  function CertificationsOf(text: string, sections: map<string, string>, rx: Patterns): seq<string> {
    match SectionText("certifications", sections, rx.certificationsMatch(text))
    case None => []
    case Some(t) => CertificationsFrom(Split(t, '\n'))
  }

  /** `_extract_certifications` */
  method ExtractCertifications(text: string, sections: map<string, string>, rx: Patterns) returns (r: seq<string>)
    ensures r == CertificationsOf(text, sections, rx)
  {
    var certText := SectionText("certifications", sections, rx.certificationsMatch(text));
    if certText.None? {
      return [];
    }
    r := CertificationLines(Split(certText.value, '\n'));
  }

  /** The line loop of `_extract_certifications`, which stops at the next heading. */
  method CertificationLines(lines: seq<string>) returns (r: seq<string>)
    ensures r == CertificationsFrom(lines)
  {
    r := ScanLoop(lines, CertReader());
  }

  /** `skills + [c for c in certifications if c not in skills]` */
  function MergeCertifications(skills: seq<string>, certs: seq<string>): seq<string> {
    skills + Filter(certs, (c: string) => c !in skills)
  }

  /** The skills come first, unchanged; a certification is added unless it is already a skill. */
  lemma MergeCertificationsSpec(skills: seq<string>, certs: seq<string>)
    ensures MergeCertifications(skills, certs)[..|skills|] == skills
    ensures forall x :: x in MergeCertifications(skills, certs) <==> x in skills || x in certs
    ensures |MergeCertifications(skills, certs)| <= |skills| + |certs|
  {
    FilterSpec(certs, (c: string) => c !in skills);
  }

  // ---------------------------------------------------------------- the text parser

  const EmptyText := "Resume text is empty."
  const NoContent := "No content found in resume."
  const NothingFound := "Could not extract meaningful content from resume."

  /** Neither a name nor an e-mail address was found, nor any experience or education entry. */
  predicate NothingMeaningful(info: PersonalInfo, experience: seq<ExperienceEntry>, education: seq<EducationEntry>) {
    !Truthy(info.name) && !Truthy(info.email) && |experience| == 0 && |education| == 0
  }

  /** `_parse_text`: the résumé, or the `ValueError` it raises. */
  function ParseTextResult(text: string, sections: map<string, string>, rx: Patterns): Result<ResumeData> {
    if IsBlank(text) then Failure(EmptyText)
    else
      var lines := NonBlankLines(Split(text, '\n'));
      if lines == [] then Failure(NoContent)
      else
        var info := PersonalInfoOf(Take(lines, 15), rx);
        var experience := ExperienceOf(text, sections, rx);
        var education := EducationOf(text, sections, rx);
        var skills := MergeCertifications(SkillsOf(text, sections, rx), CertificationsOf(text, sections, rx));
        if NothingMeaningful(info, experience, education) then Failure(NothingFound)
        else Success(ResumeData(info, SummaryOf(text, sections, rx), experience, education, skills, None))
  }

  /** `_parse_text` */
  method ParseText(text: string, sections: map<string, string>, rx: Patterns) returns (r: Result<ResumeData>)
    ensures r == ParseTextResult(text, sections, rx)
  {
    if IsBlank(text) {
      return Failure(EmptyText);
    }
    var lines := NonBlankLines(Split(text, '\n'));
    if lines == [] {
      return Failure(NoContent);
    }
    var info := ExtractPersonalInfo(Take(lines, 15), rx);
    var summary := SummaryOf(text, sections, rx);
    var experience := ExtractExperience(text, sections, rx);
    var education := ExtractEducation(text, sections, rx);
    var skills := ExtractSkills(text, sections, rx);
    var certifications := ExtractCertifications(text, sections, rx);
    var allSkills := MergeCertifications(skills, certifications);
    if NothingMeaningful(info, experience, education) {
      return Failure(NothingFound);
    }
    r := Success(ResumeData(info, summary, experience, education, allSkills, None));
  }

  lemma MessagesDiffer()
    ensures EmptyText != NoContent && EmptyText != NothingFound && NoContent != NothingFound
  {
    assert |EmptyText| == 21 && |NoContent| == 27 && |NothingFound| == 49;
  }

  /** The text parser fails with "Resume text is empty." exactly when the text is blank. */
  lemma ParseTextEmpty(text: string, sections: map<string, string>, rx: Patterns)
    ensures ParseTextResult(text, sections, rx) == Failure(EmptyText) <==> IsBlank(text)
  {
    MessagesDiffer();
  }

  /** "No content found in resume." is never raised: a text that is not blank has a non-blank line. */
  lemma ParseTextNeverNoContent(text: string, sections: map<string, string>, rx: Patterns)
    ensures ParseTextResult(text, sections, rx) != Failure(NoContent)
  {
    MessagesDiffer();
    if !IsBlank(text) {
      NonBlankText(text);
    }
  }

  /**
   * The text parser fails with "Could not extract meaningful content" exactly
   * when the text is not blank and neither a name, an e-mail address, an
   * experience entry nor an education entry was found.
   */
  lemma ParseTextNothingFound(text: string, sections: map<string, string>, rx: Patterns)
    ensures ParseTextResult(text, sections, rx) == Failure(NothingFound) <==>
              !IsBlank(text)
              && NothingMeaningful(PersonalInfoOf(Take(NonBlankLines(Split(text, '\n')), 15), rx),
                                   ExperienceOf(text, sections, rx), EducationOf(text, sections, rx))
  {
    MessagesDiffer();
    if !IsBlank(text) {
      NonBlankText(text);
    }
  }

  /**
   * A parsed résumé has its skills first and then the certifications that are
   * not already skills, no formatting map, a bullet in every experience entry
   * and a school (or "Unknown") in every education entry.
   */
  lemma ParseTextSuccess(text: string, sections: map<string, string>, rx: Patterns)
    requires ParseTextResult(text, sections, rx).Success?
    ensures var r := ParseTextResult(text, sections, rx).value;
            && r.skills == MergeCertifications(SkillsOf(text, sections, rx), CertificationsOf(text, sections, rx))
            && r.formattingMap.None?
            && (forall e :: e in r.experience ==> e.bullets != [])
            && (forall e :: e in r.education ==> e.institution != "")
            && !NothingMeaningful(r.personalInfo, r.experience, r.education)
  {
    ExperienceSpec(text, sections, rx);
    match SectionText("education", sections, rx.educationMatch(text))
    case None =>
    case Some(t) => EducationFromSpec(Split(t, '\n'), rx);
  }
}
