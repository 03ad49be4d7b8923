/**
 * The list extractors of the job-description parser: a section's bullet
 * items under the first heading keyword that yields any, items found by the
 * responsibilities pattern, keyword-filtered bullet points, and every
 * bullet point of the text with near-duplicates removed.
 *
 * The regular expressions that find a section, split it into bullets and
 * find bullet points are parameters (`JdPatterns`); the small substitutions
 * that clean an item (a leading marker, a leading number, runs of
 * whitespace, a trailing ellipsis) are written out.
 */
module JdSections {
  import opened Wrappers
  import opened Text
  import opened Collections
  import opened LlmReply
  import opened NearDuplicates

  /**
   * The parser's regular expressions, each as what the call returns:
   * `section(text, keyword, p)` is group 1 of the first match of the
   * section pattern number `p` (0 to 2) for the keyword, if any;
   * `splitBullets` is `re.split` before each bullet line; `duties` the
   * group 1 of each match of the responsibilities pattern; `bullets`,
   * `allBullets` and `skillBullets` the captured items of the bullet
   * patterns of the three bullet extractors, patterns in order;
   * `keywordMatches` the matches of the four keyword patterns on the
   * lower-cased text and `capitalized` those of the capitalised-phrase
   * pattern.
   */
  datatype JdPatterns = JdPatterns(
    section: (string, string, nat) -> Option<string>,
    splitBullets: string -> seq<string>,
    duties: string -> seq<string>,
    bullets: string -> seq<string>,
    allBullets: string -> seq<string>,
    skillBullets: string -> seq<string>,
    keywordMatches: string -> seq<string>,
    capitalized: string -> seq<string>)

  // ---------------------------------------------------------------- cleaning an item

  /** `[•\-\*●▪▫]` */
  predicate IsMarker(c: char) {
    c == '•' || c == '-' || c == '*' || c == '●' || c == '▪' || c == '▫'
  }

  /** `re.sub(r'^[•\-\*●▪▫]\s+', '', b)` */
  function DropMarker(b: string): string {
    if |b| >= 2 && IsMarker(b[0]) && IsSpace(b[1]) then TrimStart(b[1..]) else b
  }

  /** `re.sub(r'^[•\-\*●▪▫]\s*', '', b)` */
  function DropMarkerLoose(b: string): string {
    if b != [] && IsMarker(b[0]) then TrimStart(b[1..]) else b
  }

  /** `re.sub(r'^[-]\s+', '', b)` */
  function DropDash(b: string): string {
    if |b| >= 2 && b[0] == '-' && IsSpace(b[1]) then TrimStart(b[1..]) else b
  }

  /** The number of ASCII digits `s` starts with. */
  function LeadingDigits(s: string): (n: nat)
    ensures n <= |s|
    ensures forall i :: 0 <= i < n ==> '0' <= s[i] <= '9'
    ensures n < |s| ==> !('0' <= s[n] <= '9')
  {
    if s != [] && '0' <= s[0] <= '9' then 1 + LeadingDigits(s[1..]) else 0
  }

  /** `re.match(r'^\d+[\.\)]\s', line)` */
  predicate Numbered(line: string) {
    var d := LeadingDigits(line);
    d >= 1 && d + 1 < |line| && (line[d] == '.' || line[d] == ')') && IsSpace(line[d + 1])
  }

  /** `re.sub(r'^\d+[\.\)]\s+', '', b)` */
  function DropNumber(b: string): string {
    if Numbered(b) then TrimStart(b[LeadingDigits(b) + 1..]) else b
  }

  /** No whitespace but plain spaces. */
  predicate OneLine(s: string) {
    forall c :: c in s ==> !IsSpace(c) || c == ' '
  }

  /** `re.sub(r'\s+', ' ', s)`: every run of whitespace becomes one space. */
  function Collapse(s: string): (r: string)
    ensures OneLine(r)
    ensures forall i :: 0 <= i < |r| - 1 && r[i] == ' ' ==> r[i + 1] != ' '
    ensures s != [] && !IsSpace(s[0]) ==> r != [] && r[0] == s[0]
    ensures r == [] <==> s == []
    decreases |s|
  {
    if s == [] then []
    else if IsSpace(s[0]) then
      var t := TrimStart(s);
      " " + Collapse(t)
    else [s[0]] + Collapse(s[1..])
  }

  /** The number of dots `s` ends with. */
  function TrailingDots(s: string): (n: nat)
    ensures n <= |s|
    ensures forall i :: |s| - n <= i < |s| ==> s[i] == '.'
    ensures n < |s| ==> s[|s| - n - 1] != '.'
  {
    if s != [] && s[|s| - 1] == '.' then TrailingDots(s[..|s| - 1]) + 1 else 0
  }

  /** `re.sub(r'\.\.\.+$', '', s)` on text without a newline: a run of three or more final dots is dropped. */
  function DropEllipsis(s: string): (r: string)
    ensures r <= s
    ensures |r| < |s| ==> |s| - |r| >= 3 && forall i :: |r| <= i < |s| ==> s[i] == '.'
    ensures |r| < |s| ==> r == [] || r[|r| - 1] != '.'
  {
    var n := TrailingDots(s);
    if n >= 3 then s[..|s| - n] else s
  }

  /** One line: collapsing keeps that, and so do dropping a suffix and stripping. */
  lemma OneLineCleaned(s: string)
    ensures OneLine(Strip(DropEllipsis(Collapse(s))))
  {
    var c := Collapse(s);
    var d := DropEllipsis(c);
    assert forall ch :: ch in d ==> ch in c;
    StripWithin(d);
  }

  /** `bullet[-1] in '.!?'` */
  predicate EndsSentence(c: string) {
    c != [] && (c[|c| - 1] == '.' || c[|c| - 1] == '!' || c[|c| - 1] == '?')
  }

  /** A cleaned section item: stripped, on one line, longer than 15 characters, and a sentence or longer than 40. */
  predicate SectionShape(c: string) {
    Trimmed(c) && OneLine(c) && |c| > 15 && (EndsSentence(c) || |c| > 40)
  }

  /** The cleaning of `_extract_section`: marker, number and dash dropped, stripped, whitespace collapsed, ellipsis dropped, stripped. */
  function SectionItem(b: string): (r: Option<string>)
    ensures r.Some? ==> SectionShape(r.value)
  {
    var s := Strip(DropDash(DropNumber(DropMarker(b))));
    var c := Strip(DropEllipsis(Collapse(s)));
    OneLineCleaned(s);
    if |c| > 15 && (EndsSentence(c) || |c| > 40) then Some(c) else None
  }

  function SectionItemReader(): string -> Option<string> {
    b => SectionItem(b)
  }

  /** `line.startswith(('•', '-', '*', '●'))` */
  predicate StartsWithBullet(line: string) {
    line != [] && (line[0] == '•' || line[0] == '-' || line[0] == '*' || line[0] == '●')
  }

  /** A line of a section that looks like a bullet: marked, numbered, or longer than 20 characters and not a heading. */
  function BulletLine(line: string): Option<string> {
    var t := Strip(line);
    if t != [] && (StartsWithBullet(t) || Numbered(t) || (|t| > 20 && !EndsWith(t, ":"))) then Some(t) else None
  }

  function BulletLineReader(): string -> Option<string> {
    line => BulletLine(line)
  }

  /** The pieces of a section: its bullets, or when the split finds only one piece, its bullet-like lines. */
  function SectionPieces(body: string, rx: JdPatterns): seq<string> {
    var bullets := rx.splitBullets(body);
    if |bullets| == 1 then FilterMap(Split(body, '\n'), BulletLineReader()) else bullets
  }

  /** The items of the section pattern `p` for the keyword: none when the pattern does not match. */
  function ItemsAt(text: string, keyword: string, p: nat, rx: JdPatterns): seq<string> {
    match rx.section(text, keyword, p)
    case None => []
    case Some(g) => FilterMap(SectionPieces(Strip(g), rx), SectionItemReader())
  }

  /** Every item of a section has the shape the cleaning promises. */
  lemma {:induction false} ItemsAtShape(text: string, keyword: string, p: nat, rx: JdPatterns)
    ensures forall x :: x in ItemsAt(text, keyword, p, rx) ==> SectionShape(x)
  {
    var g := rx.section(text, keyword, p);
    if g.Some? {
      var pieces := SectionPieces(Strip(g.value), rx);
      FilterMapFrom(pieces, SectionItemReader());
    }
  }

  // ---------------------------------------------------------------- _extract_section

  /** The items of the first of the three patterns for the keyword that yields any. */
  function KeywordItems(keyword: string, items: (string, nat) -> seq<string>): seq<string> {
    if items(keyword, 0) != [] then items(keyword, 0)
    else if items(keyword, 1) != [] then items(keyword, 1)
    else items(keyword, 2)
  }

  /** The items of the first keyword and pattern that yield any. */
  function FirstYield(keywords: seq<string>, items: (string, nat) -> seq<string>): seq<string> {
    if keywords == [] then []
    else if KeywordItems(keywords[0], items) != [] then KeywordItems(keywords[0], items)
    else FirstYield(keywords[1..], items)
  }

  lemma {:induction false} FirstYieldEmpty(keywords: seq<string>, items: (string, nat) -> seq<string>)
    ensures FirstYield(keywords, items) == [] <==>
              forall k, p :: 0 <= k < |keywords| && 0 <= p < 3 ==> items(keywords[k], p) == []
  {
    if keywords != [] {
      var rest := keywords[1..];
      FirstYieldEmpty(rest, items);
      if FirstYield(keywords, items) == [] {
        forall k, p | 0 <= k < |keywords| && 0 <= p < 3 ensures items(keywords[k], p) == [] {
          if k > 0 {
            assert keywords[k] == rest[k - 1];
          }
        }
      } else if KeywordItems(keywords[0], items) == [] {
        var k, p :| 0 <= k < |rest| && 0 <= p < 3 && items(rest[k], p) != [];
        assert rest[k] == keywords[k + 1];
      }
    }
  }

  lemma {:induction false} FirstYieldOne(keywords: seq<string>, items: (string, nat) -> seq<string>)
    requires FirstYield(keywords, items) != []
    ensures exists k, p :: 0 <= k < |keywords| && 0 <= p < 3 && FirstYield(keywords, items) == items(keywords[k], p)
  {
    var rest := keywords[1..];
    var r := FirstYield(keywords, items);
    if r == KeywordItems(keywords[0], items) {
      if r == items(keywords[0], 0) {
        assert 0 <= 0 < |keywords|;
      } else if r == items(keywords[0], 1) {
        assert 0 <= 1 < 3;
      } else {
        assert r == items(keywords[0], 2);
      }
    } else {
      FirstYieldOne(rest, items);
      var k, p :| 0 <= k < |rest| && 0 <= p < 3 && r == items(rest[k], p);
      assert rest[k] == keywords[k + 1];
    }
  }

  function SectionItems(text: string, rx: JdPatterns): (string, nat) -> seq<string> {
    (keyword: string, p: nat) => ItemsAt(text, keyword, p, rx)
  }

  lemma SectionItemsAt(text: string, rx: JdPatterns)
    ensures forall keyword: string, p: nat {:trigger ItemsAt(text, keyword, p, rx)} ::
              SectionItems(text, rx)(keyword, p) == ItemsAt(text, keyword, p, rx)
  {
  }

  /** `_extract_section(text, keywords)`: the items of the first keyword and pattern that yield any. */
  function ExtractSection(text: string, keywords: seq<string>, rx: JdPatterns): seq<string> {
    FirstYield(keywords, SectionItems(text, rx))
  }

  /** The section is empty exactly when no keyword and pattern yields an item. */
  lemma ExtractSectionEmpty(text: string, keywords: seq<string>, rx: JdPatterns)
    ensures ExtractSection(text, keywords, rx) == [] <==>
              forall k, p :: 0 <= k < |keywords| && 0 <= p < 3 ==> ItemsAt(text, keywords[k], p, rx) == []
  {
    FirstYieldEmpty(keywords, SectionItems(text, rx));
    SectionItemsAt(text, rx);
  }

  /** A non-empty section is the item list of one keyword and pattern. */
  lemma ExtractSectionOne(text: string, keywords: seq<string>, rx: JdPatterns)
    ensures ExtractSection(text, keywords, rx) != [] ==>
              exists k, p :: 0 <= k < |keywords| && 0 <= p < 3 && ExtractSection(text, keywords, rx) == ItemsAt(text, keywords[k], p, rx)
  {
    if ExtractSection(text, keywords, rx) != [] {
      FirstYieldOne(keywords, SectionItems(text, rx));
    }
  }

  /** Every item of a section is stripped, on one line and long enough. */
  lemma ExtractSectionShape(text: string, keywords: seq<string>, rx: JdPatterns)
    ensures forall x :: x in ExtractSection(text, keywords, rx) ==> SectionShape(x)
  {
    var f := SectionItems(text, rx);
    if FirstYield(keywords, f) != [] {
      FirstYieldOne(keywords, f);
      var k, p :| 0 <= k < |keywords| && 0 <= p < 3 && FirstYield(keywords, f) == f(keywords[k], p);
      ItemsAtShape(text, keywords[k], p, rx);
    }
  }

  /**
   * `_extract_section(text, keywords, return_text=True)`: the stripped body
   * of the first keyword and pattern that match at all, or none.
   */
  function SectionText(text: string, keywords: seq<string>, rx: JdPatterns): (r: Option<string>)
    ensures r.Some? ==> Trimmed(r.value)
    ensures r.None? <==> forall k, p :: 0 <= k < |keywords| && 0 <= p < 3 ==> rx.section(text, keywords[k], p).None?
  {
    if keywords == [] then None
    else
      var kw := keywords[0];
      if rx.section(text, kw, 0).Some? then Some(Strip(rx.section(text, kw, 0).value))
      else if rx.section(text, kw, 1).Some? then Some(Strip(rx.section(text, kw, 1).value))
      else if rx.section(text, kw, 2).Some? then Some(Strip(rx.section(text, kw, 2).value))
      else
        var r := SectionText(text, keywords[1..], rx);
        assert forall k :: 1 <= k < |keywords| ==> keywords[k] == keywords[1..][k - 1];
        r
  }

  /** The items of one pattern for one keyword, as the loop body computes them. */
  method SectionItemsLoop(text: string, keyword: string, p: nat, rx: JdPatterns) returns (items: seq<string>)
    ensures items == SectionItems(text, rx)(keyword, p)
  {
    items := [];
    var m := rx.section(text, keyword, p);
    if m.Some? {
      var body := Strip(m.value);
      var bullets := rx.splitBullets(body);
      if |bullets| == 1 {
        bullets := FilterMapLoop(Split(body, '\n'), BulletLineReader());
      }
      items := FilterMapLoop(bullets, SectionItemReader());
    }
  }

  /** The two loops of `_extract_section`, over keywords and then patterns, stopping at the first that yields items. */
  method FirstYieldLoop(keywords: seq<string>, f: (string, nat) -> seq<string>) returns (items: seq<string>)
    ensures items == FirstYield(keywords, f)
  {
    var i := 0;
    while i < |keywords|
      invariant 0 <= i <= |keywords|
      invariant FirstYield(keywords[i..], f) == FirstYield(keywords, f)
    {
      assert keywords[i..][0] == keywords[i] && keywords[i..][1..] == keywords[i + 1..];
      var p: nat := 0;
      while p < 3
        invariant p <= 3
        invariant forall q: nat :: q < p ==> f(keywords[i], q) == []
      {
        items := f(keywords[i], p);
        if items != [] {
          return;
        }
        p := p + 1;
      }
      i := i + 1;
    }
    items := [];
  }

  /** `_extract_section(text, keywords)` as the loops compute it. */
  method ExtractSectionLoop(text: string, keywords: seq<string>, rx: JdPatterns) returns (items: seq<string>)
    ensures items == ExtractSection(text, keywords, rx)
  {
    items := FirstYieldLoop(keywords, SectionItems(text, rx));
  }

  // ---------------------------------------------------------------- _extract_by_patterns

  /** A piece of a match: kept, stripped, when longer than 10 characters. */
  function DutyPiece(piece: string): (r: Option<string>)
    ensures r.Some? ==> |r.value| > 10 && Trimmed(r.value) && forall c :: c in r.value ==> c in piece
  {
    StripWithin(piece);
    var t := Strip(piece);
    if |t| > 10 then Some(t) else None
  }

  function DutyReader(): string -> Option<string> {
    piece => DutyPiece(piece)
  }

  /** `re.split(r'\n|•|[-*]', s)`: the separators become newlines, then the text is split on them. */
  function SplitDuty(s: string): (r: seq<string>)
    ensures forall k :: 0 <= k < |r| ==> NoSeparator(r[k])
  {
    var u := Separated(s);
    SplitWithin(u, '\n');
    Split(u, '\n')
  }

  /** The text with every '•', '-' and '*' turned into a newline. */
  function Separated(s: string): (u: string)
    ensures forall c :: c in u ==> c != '•' && c != '-' && c != '*'
  {
    if s == [] then []
    else [if s[0] == '•' || s[0] == '-' || s[0] == '*' then '\n' else s[0]] + Separated(s[1..])
  }

  /** None of the characters `_extract_by_patterns` splits on. */
  predicate NoSeparator(x: string) {
    '\n' !in x && '•' !in x && '-' !in x && '*' !in x
  }

  function DutyItems(content: string): seq<string> {
    FilterMap(SplitDuty(Strip(content)), DutyReader())
  }

  /** The items of the first match that yields any. */
  function FirstDutyItems(matches: seq<string>): seq<string> {
    if matches == [] then []
    else
      var items := DutyItems(matches[0]);
      if items != [] then items else FirstDutyItems(matches[1..])
  }

  /** `_extract_by_patterns` with the responsibilities pattern: at most ten items. */
  function ExtractByPatterns(text: string, rx: JdPatterns): seq<string> {
    Take(FirstDutyItems(rx.duties(text)), 10)
  }

  /** A duty item is a stripped piece longer than 10 characters that holds none of the separators. */
  predicate DutyShape(x: string) {
    |x| > 10 && Trimmed(x) && NoSeparator(x)
  }

  lemma {:induction false} DutyItemsShape(content: string)
    ensures forall x :: x in DutyItems(content) ==> DutyShape(x)
  {
    var pieces := SplitDuty(Strip(content));
    FilterMapFrom(pieces, DutyReader());
    forall x | x in DutyItems(content) ensures DutyShape(x) {
      var piece :| piece in pieces && DutyReader()(piece) == Some(x);
    }
  }

  lemma {:induction false} FirstDutyItemsShape(matches: seq<string>)
    ensures forall x :: x in FirstDutyItems(matches) ==> DutyShape(x)
  {
    if matches != [] {
      DutyItemsShape(matches[0]);
      FirstDutyItemsShape(matches[1..]);
    }
  }

  /** At most ten items, each a stripped piece of more than 10 characters holding no separator. */
  lemma ExtractByPatternsSpec(text: string, rx: JdPatterns)
    ensures |ExtractByPatterns(text, rx)| <= 10
    ensures forall x :: x in ExtractByPatterns(text, rx) ==> DutyShape(x)
  {
    FirstDutyItemsShape(rx.duties(text));
    var r := FirstDutyItems(rx.duties(text));
    assert forall x :: x in Take(r, 10) ==> x in r;
  }

  /** The loop of `_extract_by_patterns`, stopping at the first match with items. */
  method ExtractByPatternsLoop(text: string, rx: JdPatterns) returns (items: seq<string>)
    ensures items == ExtractByPatterns(text, rx)
  {
    var matches := rx.duties(text);
    var i := 0;
    items := [];
    while i < |matches|
      invariant 0 <= i <= |matches|
      invariant FirstDutyItems(matches[i..]) == FirstDutyItems(matches)
    {
      FirstDutyItemsAt(matches, i);
      items := MatchDutyItems(matches[i]);
      if items != [] {
        return Take(items, 10);
      }
      i := i + 1;
    }
    return [];
  }

  /** The items of one match. */
  method MatchDutyItems(content: string) returns (items: seq<string>)
    ensures items == DutyItems(content)
  {
    items := FilterMapLoop(SplitDuty(Strip(content)), DutyReader());
  }

  lemma FirstDutyItemsAt(matches: seq<string>, i: int)
    requires 0 <= i < |matches|
    ensures FirstDutyItems(matches[i..])
            == if DutyItems(matches[i]) != [] then DutyItems(matches[i]) else FirstDutyItems(matches[i + 1..])
  {
    assert matches[i..][0] == matches[i] && matches[i..][1..] == matches[i + 1..];
  }

  // ---------------------------------------------------------------- _extract_bullet_points

  /** Some keyword occurs in the bullet, ignoring case. */
  predicate MentionsKeyword(bullet: string, keywords: seq<string>) {
    exists k :: 0 <= k < |keywords| && Contains(Lower(bullet), Lower(keywords[k]))
  }

  /** A bullet, stripped, when longer than 15 characters and mentioning a keyword (if any are given). */
  function KeywordBullet(bullet: string, keywords: seq<string>): Option<string> {
    var t := Strip(bullet);
    if |t| > 15 && (keywords == [] || MentionsKeyword(t, keywords)) then Some(t) else None
  }

  function KeywordBulletReader(keywords: seq<string>): string -> Option<string> {
    b => KeywordBullet(b, keywords)
  }

  /** `_extract_bullet_points(text, keywords)` over the bullets the patterns find. */
  function ExtractBulletPoints(found: seq<string>, keywords: seq<string>): seq<string> {
    Take(FilterMap(found, KeywordBulletReader(keywords)), 15)
  }

  /** At most fifteen bullets, each stripped, longer than 15 characters, and mentioning a keyword when keywords are given. */
  lemma ExtractBulletPointsSpec(found: seq<string>, keywords: seq<string>)
    ensures |ExtractBulletPoints(found, keywords)| <= 15
    ensures forall x :: x in ExtractBulletPoints(found, keywords) ==>
              |x| > 15 && Trimmed(x) && (keywords != [] ==> MentionsKeyword(x, keywords))
  {
    var all := FilterMap(found, KeywordBulletReader(keywords));
    FilterMapFrom(found, KeywordBulletReader(keywords));
    assert forall x :: x in Take(all, 15) ==> x in all;
  }

  /** Keeping only the bullets that mention a keyword drops none that does. */
  lemma ExtractBulletPointsKeeps(found: seq<string>, keywords: seq<string>, i: int)
    requires 0 <= i < |found| && |Strip(found[i])| > 15 && MentionsKeyword(Strip(found[i]), keywords)
    requires |FilterMap(found, KeywordBulletReader(keywords))| <= 15
    ensures Strip(found[i]) in ExtractBulletPoints(found, keywords)
  {
    FilterMapHas(found, KeywordBulletReader(keywords), i);
  }

  method ExtractBulletPointsLoop(found: seq<string>, keywords: seq<string>) returns (items: seq<string>)
    ensures items == ExtractBulletPoints(found, keywords)
  {
    items := FilterMapLoop(found, KeywordBulletReader(keywords));
    items := Take(items, 15);
  }

  // ---------------------------------------------------------------- _extract_all_bullet_points

  /**
   * The cleaning of `_extract_all_bullet_points`: stripped, marker and number
   * dropped, whitespace collapsed; kept when longer than 30 characters and a
   * sentence or longer than 50, then with its ellipsis dropped and stripped,
   * when still longer than 30.
   */
  function AllBullet(b: string): (r: Option<string>)
    ensures r.Some? ==> |r.value| > 30 && Trimmed(r.value) && OneLine(r.value)
  {
    var s := DropNumber(DropMarkerLoose(Strip(b)));
    var t := Collapse(s);
    if |t| > 30 && (EndsSentence(t) || |t| > 50) then
      var u := Strip(DropEllipsis(t));
      OneLineCleaned(s);
      if |u| > 30 then Some(u) else None
    else None
  }

  function AllBulletReader(): string -> Option<string> {
    b => AllBullet(b)
  }

  /** `_extract_all_bullet_points` over the bullets the patterns find: cleaned, near-duplicates dropped, at most 30. */
  function ExtractAllBulletPoints(found: seq<string>): seq<string> {
    Take(Kept(FilterMap(found, AllBulletReader())), 30)
  }

  lemma ApartTake(kept: seq<string>, n: nat)
    requires Apart(kept, Normalize, NearDuplicate)
    ensures Apart(Take(kept, n), Normalize, NearDuplicate)
  {
    var r := Take(kept, n);
    assert forall i :: 0 <= i < |r| ==> r[i] == kept[i];
  }

  /**
   * At most thirty items, each a cleaned bullet of the text, stripped, on
   * one line and longer than 30 characters, and no item a near-duplicate of
   * an earlier one.
   */
  lemma ExtractAllBulletPointsSpec(found: seq<string>)
    ensures |ExtractAllBulletPoints(found)| <= 30
    ensures forall x :: x in ExtractAllBulletPoints(found) ==>
              x in FilterMap(found, AllBulletReader()) && |x| > 30 && Trimmed(x) && OneLine(x)
    ensures Apart(ExtractAllBulletPoints(found), Normalize, NearDuplicate)
  {
    var cleaned := FilterMap(found, AllBulletReader());
    FilterMapFrom(found, AllBulletReader());
    KeptSpec(cleaned);
    var kept := Kept(cleaned);
    ApartTake(kept, 30);
    assert forall x :: x in Take(kept, 30) ==> x in kept;
  }

  method ExtractAllBulletPointsLoop(found: seq<string>) returns (items: seq<string>)
    ensures items == ExtractAllBulletPoints(found)
  {
    var cleaned := FilterMapLoop(found, AllBulletReader());
    items := UniqueItems(cleaned);
    items := Take(items, 30);
  }
}
