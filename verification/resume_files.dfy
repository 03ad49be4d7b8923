/**
 * The résumé parser's entry points: reading a PDF (page texts) or a Word
 * document (paragraph texts), trying the language-model path first and
 * falling back to the rule-based `_parse_text`, and choosing the reader by
 * the file's extension.
 *
 * What the document libraries read from the file is a parameter: the text
 * of each PDF page (`None` when a page has no extractable text) and the
 * text of each Word paragraph.  So are the model's reply and the JSON
 * decoder.
 */
module ResumeFiles {
  import opened Wrappers
  import opened Text
  import opened Collections
  import opened Schemas
  import opened LlmReply
  import opened ResumeParser
  import opened ResumeLlm

  /** What a parser gives back: the résumé and the formatting of each paragraph read. */
  datatype Parsed = Parsed(resume: ResumeData, formatting: map<string, string>)

  const PdfEmpty := "PDF file appears to be empty or contains no extractable text. The PDF might be image-based or encrypted."
  const Unsupported := "Unsupported file format: "

  // ---------------------------------------------------------------- whitespace across pieces

  /** A text is blank exactly when it has no ink. */
  lemma {:induction false} InkEmptyIffBlank(s: string)
    ensures Ink(s) == [] <==> IsBlank(s)
  {
    if s != [] {
      var init := s[..|s| - 1];
      InkEmptyIffBlank(init);
      assert forall i :: 0 <= i < |init| ==> init[i] == s[i];
      InkAppend(init, [s[|s| - 1]]);
      assert init + [s[|s| - 1]] == s;
    }
  }

  lemma FlattenCons<T>(xss: seq<seq<T>>)
    requires xss != []
    ensures Flatten(xss) == xss[0] + Flatten(xss[1..])
    decreases |xss|
  {
    if |xss| > 1 {
      var init := xss[..|xss| - 1];
      FlattenCons(init);
      assert init[1..] == xss[1..][..|xss[1..]| - 1];
    } else {
      assert xss[..0] == [];
      assert xss[1..] == [];
    }
  }

  /** Joining with a blank separator keeps the ink of the pieces. */
  lemma {:induction false} InkJoin(parts: seq<string>, sep: string)
    requires IsBlank(sep)
    ensures Ink(Join(parts, sep)) == Ink(Flatten(parts))
    decreases |parts|
  {
    if |parts| == 1 {
      assert parts[..0] == [];
      assert Flatten(parts) == [] + parts[0];
      assert [] + parts[0] == parts[0];
    } else if |parts| > 1 {
      var rest := parts[1..];
      InkJoin(rest, sep);
      FlattenCons(parts);
      InkBlank(sep);
      InkAppend(parts[0] + sep, Join(rest, sep));
      InkAppend(parts[0], sep);
      InkAppend(parts[0], Flatten(rest));
    }
  }

  /** The pieces have no ink exactly when each of them is blank. */
  lemma {:induction false} InkFlattenBlank(parts: seq<string>)
    ensures Ink(Flatten(parts)) == [] <==> forall k :: 0 <= k < |parts| ==> IsBlank(parts[k])
  {
    if parts != [] {
      var init := parts[..|parts| - 1];
      var last := parts[|parts| - 1];
      InkFlattenBlank(init);
      InkAppend(Flatten(init), last);
      InkEmptyIffBlank(last);
      assert forall k :: 0 <= k < |init| ==> init[k] == parts[k];
    }
  }

  /** Rejoining the wrapped lines of a text that is not blank gives a text that is not blank. */
  lemma WrappedStaysNonBlank(full: string, rx: Patterns)
    requires !IsBlank(full)
    ensures !IsBlank(Join(Units(Split(full, '\n'), rx), "\n"))
  {
    var lines := Split(full, '\n');
    var units := Units(lines, rx);
    assert IsBlank("\n");
    SplitJoin(full, '\n');
    assert ['\n'] == "\n";
    InkJoin(lines, "\n");
    UnitsKeepText(lines, rx);
    InkJoin(units, "\n");
    InkEmptyIffBlank(full);
    InkEmptyIffBlank(Join(units, "\n"));
  }

  lemma MessagesDistinct()
    ensures PdfEmpty != EmptyText && PdfEmpty != NoContent && PdfEmpty != NothingFound
  {
    assert |PdfEmpty| == 104;
  }

  // ---------------------------------------------------------------- PDF

  /** `if page_text: text_content.append(page_text)` */
  function PageReader(): Option<string> -> Option<string> {
    (page: Option<string>) => if Truthy(page) then page else None
  }

  /** The texts of the pages that have any, in page order. */
  function PageTexts(pages: seq<Option<string>>): seq<string> {
    FilterMap(pages, PageReader())
  }

  /** Every page text kept is non-empty and comes from a page. */
  lemma PageTextsSpec(pages: seq<Option<string>>)
    ensures |PageTexts(pages)| <= |pages|
    ensures forall t :: t in PageTexts(pages) ==> t != "" && Some(t) in pages
  {
    FilterMapFrom(pages, PageReader());
  }

  /**
   * `_parse_pdf`: the page texts joined by newlines; a blank result is
   * refused; the language model's résumé would be taken when there is one
   * (as written there never is), otherwise the wrapped lines are rejoined
   * and parsed by the rules.
   */
  function ParsePdfResult(pages: seq<Option<string>>, reply: Option<string>,
                          decode: string -> Option<Json>, rx: Patterns): Result<Parsed> {
    var full := Join(PageTexts(pages), "\n");
    if IsBlank(full) then Failure(PdfEmpty)
    else
      match LlmResumeAsWritten(reply, decode)
      case Some(resume) => Success(Parsed(resume, map[]))
      case None =>
        match ParseTextResult(Join(Units(Split(full, '\n'), rx), "\n"), map[], rx)
        case Success(resume) => Success(Parsed(resume, map[]))
        case Failure(e) => Failure(e)
  }

  /** `_parse_pdf` */
  method ParsePdf(pages: seq<Option<string>>, reply: Option<string>,
                  decode: string -> Option<Json>, rx: Patterns) returns (r: Result<Parsed>)
    ensures r == ParsePdfResult(pages, reply, decode, rx)
  {
    var texts := FilterMapLoop(pages, PageReader());
    var full := Join(texts, "\n");
    if IsBlank(full) {
      return Failure(PdfEmpty);
    }
    // the language-model path gives nothing as written, so the rules always run
    var llm := LlmResumeAsWritten(reply, decode);
    if llm.Some? {
      assert false;
    }
    var joined := JoinWrappedLines(full, rx);
    var parsed := ParseText(joined, map[], rx);
    match parsed
    case Success(resume) => r := Success(Parsed(resume, map[]));
    case Failure(e) => r := Failure(e);
  }

  /**
   * The PDF is refused as empty exactly when its page texts are blank; the
   * only other refusal is finding nothing meaningful, because the rejoined
   * text of a non-blank PDF is never blank.
   */
  lemma ParsePdfErrors(pages: seq<Option<string>>, reply: Option<string>,
                       decode: string -> Option<Json>, rx: Patterns)
    ensures ParsePdfResult(pages, reply, decode, rx) == Failure(PdfEmpty) <==> IsBlank(Join(PageTexts(pages), "\n"))
    ensures ParsePdfResult(pages, reply, decode, rx).Failure? ==>
              ParsePdfResult(pages, reply, decode, rx).error in {PdfEmpty, NothingFound}
  {
    var full := Join(PageTexts(pages), "\n");
    MessagesDistinct();
    if !IsBlank(full) && LlmResumeAsWritten(reply, decode).None? {
      var joined := Join(Units(Split(full, '\n'), rx), "\n");
      WrappedStaysNonBlank(full, rx);
      ParseTextEmpty(joined, map[], rx);
      ParseTextNeverNoContent(joined, map[], rx);
      match ParseTextResult(joined, map[], rx)
      case Success(_) =>
      case Failure(e) =>
        assert e != EmptyText && e != NoContent;
        assert ParsePdfResult(pages, reply, decode, rx) == Failure(e);
    }
  }

  /**
   * The model's reply never decides a PDF's result: the language-model
   * path gives nothing as written, so the rules always parse the text.
   */
  lemma ParsePdfIgnoresReply(pages: seq<Option<string>>, reply: Option<string>,
                             decode: string -> Option<Json>, rx: Patterns)
    ensures ParsePdfResult(pages, reply, decode, rx) == ParsePdfResult(pages, None, decode, rx)
    ensures ParsePdfResult(pages, reply, decode, rx).Success? ==>
              ParsePdfResult(pages, reply, decode, rx).value.formatting == map[]
  {
  }

  /** Pages without text change nothing. */
  lemma PdfSkipsEmptyPages(pages: seq<Option<string>>, reply: Option<string>,
                           decode: string -> Option<Json>, rx: Patterns)
    ensures ParsePdfResult(pages + [None] + [Some("")], reply, decode, rx) == ParsePdfResult(pages, reply, decode, rx)
  {
    var more := pages + [None] + [Some("")];
    assert more[..|more| - 1] == pages + [None];
    assert (pages + [None])[..|pages|] == pages;
    assert PageTexts(pages + [None]) == PageTexts(pages);
    assert PageTexts(more) == PageTexts(pages);
  }

  // ---------------------------------------------------------------- Word documents

  /** `para.text.strip()` is truthy. */
  function ParagraphReader(): string -> bool {
    (p: string) => Strip(p) != ""
  }

  /** The document text: the non-blank paragraphs, unstripped, joined by newlines. */
  function DocumentText(paras: seq<string>): string {
    Join(Filter(paras, ParagraphReader()), "\n")
  }

  /** The document text is blank exactly when every paragraph is. */
  lemma DocumentTextBlank(paras: seq<string>)
    ensures IsBlank(DocumentText(paras)) <==> forall k :: 0 <= k < |paras| ==> IsBlank(paras[k])
  {
    assert IsBlank("\n");
    InkJoin(Filter(paras, ParagraphReader()), "\n");
    InkEmptyIffBlank(DocumentText(paras));
    InkKept(paras);
  }

  /** The kept paragraphs have no ink exactly when every paragraph is blank. */
  lemma {:induction false} InkKept(paras: seq<string>)
    ensures Ink(Flatten(Filter(paras, ParagraphReader()))) == [] <==> forall k :: 0 <= k < |paras| ==> IsBlank(paras[k])
  {
    if paras != [] {
      var init := paras[..|paras| - 1];
      var last := paras[|paras| - 1];
      var prev := Filter(init, ParagraphReader());
      InkKept(init);
      assert forall k :: 0 <= k < |init| ==> init[k] == paras[k];
      StripEmptyIffBlank(last);
      if ParagraphReader()(last) {
        assert Filter(paras, ParagraphReader()) == prev + [last];
        FlattenSnoc(prev, last);
        InkAppend(Flatten(prev), last);
        InkEmptyIffBlank(last);
      } else {
        assert Filter(paras, ParagraphReader()) == prev;
      }
    }
  }

  /** The key `_parse_docx` files paragraph `i` under. */
  function ParagraphKey(i: nat): string {
    "para_" + NatToString(i)
  }

  lemma ParagraphKeyInjective(i: nat, j: nat)
    requires ParagraphKey(i) == ParagraphKey(j)
    ensures i == j
  {
    assert ParagraphKey(i)[5..] == NatToString(i);
    assert ParagraphKey(j)[5..] == NatToString(j);
    NatToStringValue(i);
    NatToStringValue(j);
  }

  /** A paragraph's formatting is recorded when it has text and is not a heading. */
  predicate Recorded(para: string) {
    Strip(para) != "" && IdentifySection(Strip(para)).None?
  }

  function Recorder(): string -> bool {
    (p: string) => Recorded(p)
  }

  /** The stripped text of each paragraph that `keep` selects, under its key. */
  function Keyed(paras: seq<string>, keep: string -> bool): map<string, string> {
    if paras == [] then map[]
    else
      var i := |paras| - 1;
      var prev := Keyed(paras[..i], keep);
      if keep(paras[i]) then prev[ParagraphKey(i) := Strip(paras[i])] else prev
  }

  /**
   * `formatting_map`: the stripped text of each recorded paragraph under
   * its key; its style and runs come from the document library.
   */
  function FormattingMap(paras: seq<string>): map<string, string> {
    Keyed(paras, Recorder())
  }

  /** Paragraph `i` is under its key exactly when it is selected, with its stripped text. */
  lemma {:induction false} KeyedAt(paras: seq<string>, keep: string -> bool, i: nat)
    requires i < |paras|
    ensures ParagraphKey(i) in Keyed(paras, keep) <==> keep(paras[i])
    ensures keep(paras[i]) ==> Keyed(paras, keep)[ParagraphKey(i)] == Strip(paras[i])
  {
    var n := |paras| - 1;
    if i < n {
      var init := paras[..n];
      KeyedAt(init, keep, i);
      assert init[i] == paras[i];
      if ParagraphKey(i) == ParagraphKey(n) {
        ParagraphKeyInjective(i, n);
      }
    } else {
      KeyedKeys(paras[..n], keep);
      if ParagraphKey(n) in Keyed(paras[..n], keep) {
        var j: nat :| j < n && ParagraphKey(n) == ParagraphKey(j);
        ParagraphKeyInjective(n, j);
      }
    }
  }

  /** The map holds exactly the recorded paragraphs, each under its own key, with its stripped text. */
  lemma FormattingMapSpec(paras: seq<string>)
    ensures forall i: nat :: i < |paras| ==> (ParagraphKey(i) in FormattingMap(paras) <==> Recorded(paras[i]))
    ensures forall i: nat :: i < |paras| && Recorded(paras[i]) ==> FormattingMap(paras)[ParagraphKey(i)] == Strip(paras[i])
  {
    forall i: nat | i < |paras|
      ensures ParagraphKey(i) in FormattingMap(paras) <==> Recorded(paras[i])
      ensures Recorded(paras[i]) ==> FormattingMap(paras)[ParagraphKey(i)] == Strip(paras[i])
    {
      KeyedAt(paras, Recorder(), i);
    }
  }

  /** Every key of the map is the key of some paragraph. */
  lemma {:induction false} KeyedKeys(paras: seq<string>, keep: string -> bool)
    ensures forall key :: key in Keyed(paras, keep) ==> exists i: nat :: i < |paras| && key == ParagraphKey(i)
  {
    if paras != [] {
      var n := |paras| - 1;
      KeyedKeys(paras[..n], keep);
    }
  }

  /** The paragraph loop of `_parse_docx` that records formatting. */
  method RecordFormatting(paras: seq<string>) returns (formatting: map<string, string>)
    ensures formatting == FormattingMap(paras)
  {
    formatting := map[];
    var i := 0;
    while i < |paras|
      invariant 0 <= i <= |paras|
      invariant formatting == Keyed(paras[..i], Recorder())
    {
      assert paras[..i + 1][..i] == paras[..i];
      var text := Strip(paras[i]);
      if text != "" && IdentifySection(text).None? {
        formatting := formatting[ParagraphKey(i) := text];
      }
      i := i + 1;
    }
    assert paras[..i] == paras;
  }

  /**
   * `_parse_docx`: the language model's résumé when there is one (as
   * written there never is), otherwise the rules applied to the document
   * text and its sections, together with the formatting of the paragraphs.
   */
  function ParseDocxResult(paras: seq<string>, reply: Option<string>,
                           decode: string -> Option<Json>, rx: Patterns): Result<Parsed> {
    match LlmResumeAsWritten(reply, decode)
    case Some(resume) => Success(Parsed(resume, map[]))
    case None =>
      match ParseTextResult(DocumentText(paras), Sections(paras), rx)
      case Success(resume) => Success(Parsed(resume, FormattingMap(paras)))
      case Failure(e) => Failure(e)
  }

  /** `_parse_docx` */
  method ParseDocx(paras: seq<string>, reply: Option<string>,
                   decode: string -> Option<Json>, rx: Patterns) returns (r: Result<Parsed>)
    ensures r == ParseDocxResult(paras, reply, decode, rx)
  {
    var full := DocumentText(paras);
    // the language-model path gives nothing as written, so the rules always run
    var llm := LlmResumeAsWritten(reply, decode);
    if llm.Some? {
      assert false;
    }
    var sections := GroupSections(paras);
    var formatting := RecordFormatting(paras);
    var parsed := ParseText(full, sections, rx);
    match parsed
    case Success(resume) => r := Success(Parsed(resume, formatting));
    case Failure(e) => r := Failure(e);
  }

  /**
   * A document is refused as empty exactly when all its paragraphs are
   * blank, and otherwise only for finding nothing meaningful.
   */
  lemma ParseDocxErrors(paras: seq<string>, reply: Option<string>,
                        decode: string -> Option<Json>, rx: Patterns)
    ensures ParseDocxResult(paras, reply, decode, rx) == Failure(EmptyText) <==>
              forall k :: 0 <= k < |paras| ==> IsBlank(paras[k])
    ensures ParseDocxResult(paras, reply, decode, rx).Failure? ==>
              ParseDocxResult(paras, reply, decode, rx).error in {EmptyText, NothingFound}
  {
    var full := DocumentText(paras);
    DocumentTextBlank(paras);
    ParseTextEmpty(full, Sections(paras), rx);
    ParseTextNeverNoContent(full, Sections(paras), rx);
    match ParseTextResult(full, Sections(paras), rx)
    case Success(_) =>
    case Failure(e) =>
      assert ParseDocxResult(paras, reply, decode, rx) == Failure(e);
  }

  /**
   * The model's reply never decides a document's result, and a document
   * that parses always carries its paragraphs' formatting.
   */
  lemma ParseDocxIgnoresReply(paras: seq<string>, reply: Option<string>,
                              decode: string -> Option<Json>, rx: Patterns)
    ensures ParseDocxResult(paras, reply, decode, rx) == ParseDocxResult(paras, None, decode, rx)
    ensures ParseDocxResult(paras, reply, decode, rx).Success? ==>
              ParseDocxResult(paras, reply, decode, rx).value.formatting == FormattingMap(paras)
  {
  }

  // ---------------------------------------------------------------- choosing the reader

  /** Nothing after the last occurrence of a character is that character. */
  lemma AfterLast(s: string, c: char)
    ensures c !in s[LastIndexOf(s, c) + 1..]
  {
    var i := LastIndexOf(s, c);
    var t := s[i + 1..];
    forall k | 0 <= k < |t|
      ensures t[k] != c
    {
      assert t[k] == s[i + 1 + k];
    }
  }

  /** `Path(path).name`: the text after the last '/'. */
  function FileName(path: string): (r: string)
    ensures '/' !in r && |r| <= |path| && r == path[|path| - |r|..]
  {
    AfterLast(path, '/');
    path[LastIndexOf(path, '/') + 1..]
  }

  /**
   * `Path.suffix` of a file name: from its last '.' on, when that dot is
   * neither the first nor the last character; otherwise empty.
   */
  function Suffix(name: string): (r: string)
    ensures |r| <= |name|
    ensures r == [] || (|r| >= 2 && r[0] == '.' && '.' !in r[1..] && r == name[|name| - |r|..])
    ensures r != [] <==> 0 < LastIndexOf(name, '.') < |name| - 1
  {
    var i := LastIndexOf(name, '.');
    if 0 < i < |name| - 1 then
      AfterLast(name, '.');
      assert name[i..][1..] == name[i + 1..];
      name[i..]
    else []
  }

  /** The lower-cased suffix of the file named by the path. */
  function Extension(path: string): string {
    Lower(Suffix(FileName(path)))
  }

  /**
   * `parse`: a PDF by its pages, a Word document by its paragraphs, any
   * other extension refused by name.  Errors of the readers pass through
   * unchanged.
   */
  function ParseResult(path: string, pages: seq<Option<string>>, paras: seq<string>, reply: Option<string>,
                       decode: string -> Option<Json>, rx: Patterns): Result<Parsed> {
    var ext := Extension(path);
    if ext == ".pdf" then ParsePdfResult(pages, reply, decode, rx)
    else if ext == ".docx" || ext == ".doc" then ParseDocxResult(paras, reply, decode, rx)
    else Failure(Unsupported + ext)
  }

  /** `parse` */
  method Parse(path: string, pages: seq<Option<string>>, paras: seq<string>, reply: Option<string>,
               decode: string -> Option<Json>, rx: Patterns) returns (r: Result<Parsed>)
    ensures r == ParseResult(path, pages, paras, reply, decode, rx)
  {
    var ext := Extension(path);
    if ext == ".pdf" {
      r := ParsePdf(pages, reply, decode, rx);
    } else if ext == ".docx" || ext == ".doc" {
      r := ParseDocx(paras, reply, decode, rx);
    } else {
      r := Failure(Unsupported + ext);
    }
  }

  /**
   * Every refusal names its cause: an unsupported extension (then the
   * extension is not one of the three), an empty PDF, an empty document,
   * or nothing meaningful found.
   */
  lemma ParseErrors(path: string, pages: seq<Option<string>>, paras: seq<string>, reply: Option<string>,
                    decode: string -> Option<Json>, rx: Patterns)
    ensures var r := ParseResult(path, pages, paras, reply, decode, rx);
            r.Failure? ==>
              r.error in {PdfEmpty, EmptyText, NothingFound}
              || (r.error == Unsupported + Extension(path) && Extension(path) !in {".pdf", ".docx", ".doc"})
  {
    var ext := Extension(path);
    if ext == ".pdf" {
      ParsePdfErrors(pages, reply, decode, rx);
    } else if ext == ".docx" || ext == ".doc" {
      ParseDocxErrors(paras, reply, decode, rx);
    }
  }

  /** A file with no extension at all is refused with an empty extension named. */
  lemma NoExtensionRefused(path: string, pages: seq<Option<string>>, paras: seq<string>, reply: Option<string>,
                           decode: string -> Option<Json>, rx: Patterns)
    requires '.' !in FileName(path)
    ensures ParseResult(path, pages, paras, reply, decode, rx) == Failure(Unsupported)
  {
    assert Unsupported + [] == Unsupported;
  }
}
