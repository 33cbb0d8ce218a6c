/** The text and structure helpers of test_document_ai/lib/document_processor.py:
    `TextExtractor` over a processed document, the MIME fallback table and the
    processor resource name. The document is the protobuf object, in which an
    unset index or text reads as 0 or "". */
module DocumentProcessing {
  import opened Common

  /** A text-anchor segment; 0 stands for an unset index. */
  datatype Segment = Segment(startIndex: nat, endIndex: nat)

  /** A block, paragraph or line: the segments of its layout's text anchor
      (none when the layout or the anchor is unset). */
  datatype Element = Element(segments: seq<Segment>)

  datatype DocPage = DocPage(blocks: seq<Element>, paragraphs: seq<Element>, lines: seq<Element>)

  datatype Document = Document(text: string, pages: seq<DocPage>)

  datatype ElementKind = Blocks | Paragraphs | Lines

  function ElementsOf(p: DocPage, kind: ElementKind): seq<Element> {
    match kind
    case Blocks => p.blocks
    case Paragraphs => p.paragraphs
    case Lines => p.lines
  }

  // ---------------------------------------------------------------------------
  // `extract_full_text`
  // ---------------------------------------------------------------------------

  /** `extract_full_text`: the text, or "" when it is unset. */
  function FullText(doc: Document): (r: string)
    ensures r == doc.text
    ensures |r| == TextLength(doc)
  {
    if doc.text != [] then doc.text else ""
  }

  /** `len(document.text) if document.text else 0`. */
  function TextLength(doc: Document): nat {
    if doc.text != [] then |doc.text| else 0
  }

  // ---------------------------------------------------------------------------
  // `extract_blocks`, `extract_paragraphs`, `extract_lines`
  // ---------------------------------------------------------------------------

  /** One segment's part of the text: an unset start is 0 and an unset end is
      the end of the text. */
  function SegmentPart(seg: Segment, fullText: string): string {
    var startIdx := if seg.startIndex != 0 then seg.startIndex else 0;
    var endIdx := if seg.endIndex != 0 then seg.endIndex else |fullText|;
    Slice(fullText, startIdx, endIdx)
  }

  /** An end of 0 reads to the end of the text, so a segment with both indices
      unset is the whole text; in-range indices give exactly that substring. */
  lemma SegmentPartSpec(seg: Segment, fullText: string)
    ensures var part := SegmentPart(seg, fullText);
            && |part| <= |fullText|
            && (seg.endIndex == 0 ==> part == fullText[if seg.startIndex <= |fullText| then seg.startIndex else |fullText|..])
            && (0 < seg.endIndex && seg.startIndex <= seg.endIndex <= |fullText| ==> part == fullText[seg.startIndex..seg.endIndex])
            && (seg.endIndex > 0 && seg.startIndex >= seg.endIndex ==> part == [])
  {
  }

  function SegmentParts(segs: seq<Segment>, fullText: string): (parts: seq<string>)
    ensures |parts| == |segs|
  {
    seq(|segs|, i requires 0 <= i < |segs| => SegmentPart(segs[i], fullText))
  }

  /** `"".join(parts)`. */
  function Concat(parts: seq<string>): string {
    if parts == [] then [] else Concat(parts[..|parts| - 1]) + parts[|parts| - 1]
  }

  /** Segments laid end to end, each set and in range, cover one stretch of
      the text: the element's text is exactly that substring. */
  predicate Contiguous(segs: seq<Segment>, fullText: string) {
    && (forall i :: 0 <= i < |segs| ==> 0 < segs[i].endIndex <= |fullText| && segs[i].startIndex <= segs[i].endIndex)
    && (forall i :: 0 < i < |segs| ==> segs[i - 1].endIndex == segs[i].startIndex)
  }

  lemma {:induction false} ContiguousSegmentsText(segs: seq<Segment>, fullText: string)
    requires segs != [] && Contiguous(segs, fullText)
    ensures segs[0].startIndex <= segs[|segs| - 1].endIndex
    ensures Concat(SegmentParts(segs, fullText)) == fullText[segs[0].startIndex..segs[|segs| - 1].endIndex]
  {
    var n := |segs| - 1;
    var parts := SegmentParts(segs, fullText);
    assert parts[..n] == SegmentParts(segs[..n], fullText);
    SegmentPartSpec(segs[n], fullText);
    if n == 0 {
      assert Concat(parts) == Concat([]) + parts[0];
    } else {
      assert Contiguous(segs[..n], fullText);
      ContiguousSegmentsText(segs[..n], fullText);
      var a, b, c := segs[0].startIndex, segs[n - 1].endIndex, segs[n].endIndex;
      assert Concat(parts) == fullText[a..b] + fullText[b..c];
      assert fullText[a..b] + fullText[b..c] == fullText[a..c];
    }
  }

  /** The texts of the elements of one page that have segments, in order. */
  function PageTexts(els: seq<Element>, fullText: string): seq<string> {
    if els == [] then []
    else
      var e := els[|els| - 1];
      PageTexts(els[..|els| - 1], fullText) + (if e.segments != [] then [Concat(SegmentParts(e.segments, fullText))] else [])
  }

  /** The texts of all pages, in page order, as a specification. */
  function Texts(pages: seq<DocPage>, kind: ElementKind, fullText: string): seq<string> {
    if pages == [] then []
    else Texts(pages[..|pages| - 1], kind, fullText) + PageTexts(ElementsOf(pages[|pages| - 1], kind), fullText)
  }

  /** The number of elements of a kind, over all pages. */
  function TotalOf(pages: seq<DocPage>, kind: ElementKind): nat {
    if pages == [] then 0 else TotalOf(pages[..|pages| - 1], kind) + |ElementsOf(pages[|pages| - 1], kind)|
  }

  /** Every element of a kind has segments. */
  predicate AllAnchored(pages: seq<DocPage>, kind: ElementKind) {
    forall i, j :: 0 <= i < |pages| && 0 <= j < |ElementsOf(pages[i], kind)| ==> ElementsOf(pages[i], kind)[j].segments != []
  }

  lemma {:induction false} PageTextsCount(els: seq<Element>, fullText: string)
    ensures |PageTexts(els, fullText)| <= |els|
    ensures (forall j :: 0 <= j < |els| ==> els[j].segments != []) ==> |PageTexts(els, fullText)| == |els|
  {
    if els != [] {
      var n := |els| - 1;
      PageTextsCount(els[..n], fullText);
      assert forall j :: 0 <= j < n ==> els[..n][j] == els[j];
    }
  }

  /** There is one text per element that has segments: never more texts than
      elements, and exactly as many when every element is anchored. */
  lemma {:induction false} TextsCount(pages: seq<DocPage>, kind: ElementKind, fullText: string)
    ensures |Texts(pages, kind, fullText)| <= TotalOf(pages, kind)
    ensures AllAnchored(pages, kind) ==> |Texts(pages, kind, fullText)| == TotalOf(pages, kind)
  {
    if pages != [] {
      var n := |pages| - 1;
      TextsCount(pages[..n], kind, fullText);
      PageTextsCount(ElementsOf(pages[n], kind), fullText);
      if AllAnchored(pages, kind) {
        assert AllAnchored(pages[..n], kind) by {
          forall i, j | 0 <= i < n && 0 <= j < |ElementsOf(pages[..n][i], kind)|
            ensures ElementsOf(pages[..n][i], kind)[j].segments != []
          {
            assert pages[..n][i] == pages[i];
          }
        }
      }
    }
  }

  /** The parts loop of one element, then `"".join`. */
  method ElementText(segs: seq<Segment>, fullText: string) returns (text: string)
    ensures text == Concat(SegmentParts(segs, fullText))
  {
    var parts: seq<string> := [];
    for k := 0 to |segs|
      invariant parts == SegmentParts(segs[..k], fullText)
    {
      var seg := segs[k];
      var startIdx := if seg.startIndex != 0 then seg.startIndex else 0;
      var endIdx := if seg.endIndex != 0 then seg.endIndex else |fullText|;
      parts := parts + [Slice(fullText, startIdx, endIdx)];
    }
    assert segs[..|segs|] == segs;
    text := Concat(parts);
  }

  /** The element loop of one page. */
  method ElementTexts(els: seq<Element>, fullText: string) returns (texts: seq<string>)
    ensures texts == PageTexts(els, fullText)
  {
    texts := [];
    for j := 0 to |els|
      invariant texts == PageTexts(els[..j], fullText)
    {
      assert els[..j + 1][..j] == els[..j];
      if els[j].segments != [] {
        var t := ElementText(els[j].segments, fullText);
        texts := texts + [t];
      }
    }
    assert els[..|els|] == els;
  }

  /** The page loop shared by the three extractors. */
  method ExtractTexts(doc: Document, kind: ElementKind) returns (texts: seq<string>)
    ensures texts == Texts(doc.pages, kind, doc.text)
    ensures |texts| <= TotalOf(doc.pages, kind)
  {
    texts := [];
    for i := 0 to |doc.pages|
      invariant texts == Texts(doc.pages[..i], kind, doc.text)
    {
      assert doc.pages[..i + 1][..i] == doc.pages[..i];
      var pageTexts := ElementTexts(ElementsOf(doc.pages[i], kind), doc.text);
      texts := texts + pageTexts;
    }
    assert doc.pages[..|doc.pages|] == doc.pages;
    TextsCount(doc.pages, kind, doc.text);
  }

  /** `extract_blocks`. */
  method ExtractBlocks(doc: Document) returns (blocks: seq<string>)
    ensures blocks == Texts(doc.pages, Blocks, doc.text)
    ensures |blocks| <= TotalOf(doc.pages, Blocks)
  {
    blocks := ExtractTexts(doc, Blocks);
  }

  /** `extract_paragraphs`. */
  method ExtractParagraphs(doc: Document) returns (paragraphs: seq<string>)
    ensures paragraphs == Texts(doc.pages, Paragraphs, doc.text)
    ensures |paragraphs| <= TotalOf(doc.pages, Paragraphs)
  {
    paragraphs := ExtractTexts(doc, Paragraphs);
  }

  /** `extract_lines`. */
  method ExtractLines(doc: Document) returns (lines: seq<string>)
    ensures lines == Texts(doc.pages, Lines, doc.text)
    ensures |lines| <= TotalOf(doc.pages, Lines)
  {
    lines := ExtractTexts(doc, Lines);
  }

  // ---------------------------------------------------------------------------
  // `get_document_structure_info`
  // ---------------------------------------------------------------------------

  datatype PageInfo = PageInfo(pageNumber: nat, blocks: nat, paragraphs: nat, lines: nat)

  datatype StructureInfo = StructureInfo(totalPages: nat, totalBlocks: nat, totalParagraphs: nat, totalLines: nat,
                                         textLength: nat, pageDetails: seq<PageInfo>)

  function PageInfoOf(p: DocPage, i: nat): PageInfo {
    PageInfo(i + 1, |p.blocks|, |p.paragraphs|, |p.lines|)
  }

  /** The sum of one count over the page details. */
  function DetailSum(details: seq<PageInfo>, kind: ElementKind): nat {
    if details == [] then 0
    else
      var d := details[|details| - 1];
      DetailSum(details[..|details| - 1], kind) + match kind case Blocks => d.blocks case Paragraphs => d.paragraphs case Lines => d.lines
  }

  /** `get_document_structure_info`. */
  method GetDocumentStructureInfo(doc: Document) returns (info: StructureInfo)
    ensures info.totalPages == |doc.pages| && info.textLength == TextLength(doc)
    ensures |info.pageDetails| == |doc.pages|
    ensures forall i :: 0 <= i < |doc.pages| ==> info.pageDetails[i] == PageInfoOf(doc.pages[i], i)
    ensures info.totalBlocks == DetailSum(info.pageDetails, Blocks) == TotalOf(doc.pages, Blocks)
    ensures info.totalParagraphs == DetailSum(info.pageDetails, Paragraphs) == TotalOf(doc.pages, Paragraphs)
    ensures info.totalLines == DetailSum(info.pageDetails, Lines) == TotalOf(doc.pages, Lines)
  {
    var pages := doc.pages;
    var totalBlocks, totalParagraphs, totalLines := 0, 0, 0;
    var details: seq<PageInfo> := [];
    for i := 0 to |pages|
      invariant |details| == i
      invariant forall k :: 0 <= k < i ==> details[k] == PageInfoOf(pages[k], k)
      invariant totalBlocks == DetailSum(details, Blocks) == TotalOf(pages[..i], Blocks)
      invariant totalParagraphs == DetailSum(details, Paragraphs) == TotalOf(pages[..i], Paragraphs)
      invariant totalLines == DetailSum(details, Lines) == TotalOf(pages[..i], Lines)
    {
      assert pages[..i + 1][..i] == pages[..i];
      var pageInfo := PageInfo(i + 1, |pages[i].blocks|, |pages[i].paragraphs|, |pages[i].lines|);
      totalBlocks := totalBlocks + pageInfo.blocks;
      totalParagraphs := totalParagraphs + pageInfo.paragraphs;
      totalLines := totalLines + pageInfo.lines;
      assert (details + [pageInfo])[..i] == details;
      details := details + [pageInfo];
    }
    assert pages[..|pages|] == pages;
    info := StructureInfo(|pages|, totalBlocks, totalParagraphs, totalLines, TextLength(doc), details);
  }

  // ---------------------------------------------------------------------------
  // `DocumentAIProcessor`: resource name and MIME fallback
  // ---------------------------------------------------------------------------

  /** `projects/{project}/locations/{location}/processors/{id}`. */
  function ProcessorName(projectId: string, location: string, processorId: string): string {
    "projects/" + projectId + "/locations/" + location + "/processors/" + processorId
  }

  /** The name splits back on '/' into its six components when none of the
      three ids contains a '/', so distinct ids give distinct names. */
  lemma ProcessorNameComponents(projectId: string, location: string, processorId: string)
    requires '/' !in projectId && '/' !in location && '/' !in processorId
    ensures Split(ProcessorName(projectId, location, processorId), '/')
            == ["projects", projectId, "locations", location, "processors", processorId]
  {
    var parts := ["projects", projectId, "locations", location, "processors", processorId];
    ProcessorNameJoin(projectId, location, processorId);
    SplitJoin(parts, '/');
  }

  /** The name is its six components joined with '/'. */
  lemma ProcessorNameJoin(projectId: string, location: string, processorId: string)
    ensures Join(["projects", projectId, "locations", location, "processors", processorId], "/")
            == ProcessorName(projectId, location, processorId)
  {
    var parts := ["projects", projectId, "locations", location, "processors", processorId];
    LocationPathJoin(location, processorId);
    assert parts[2..] == ["locations", location, "processors", processorId];
    assert Join(parts[1..], "/") == projectId + "/locations/" + location + "/processors/" + processorId;
  }

  /** The part of the name after the project. */
  lemma LocationPathJoin(location: string, processorId: string)
    ensures Join(["locations", location, "processors", processorId], "/")
            == "locations/" + location + "/processors/" + processorId
  {
    var parts := ["locations", location, "processors", processorId];
    assert Join(parts[3..], "/") == processorId;
    assert Join(parts[2..], "/") == "processors/" + processorId;
    assert Join(parts[1..], "/") == location + "/processors/" + processorId;
  }

  /** The suffix table used when the MIME guess fails. */
  const MimeMap: map<string, string> := map[
    ".jpg" := "image/jpeg",
    ".jpeg" := "image/jpeg",
    ".png" := "image/png",
    ".tiff" := "image/tiff",
    ".tif" := "image/tiff",
    ".pdf" := "application/pdf"
  ]

  /** `_get_mime_type`: the guess when there is one, otherwise the lower-cased
      suffix looked up in the table, otherwise `application/octet-stream`. The
      guess (`mimetypes.guess_type`) is a parameter. */
  function MimeType(guessed: Option<string>, suffix: string): (m: string)
    ensures guessed.Some? && guessed.value != [] ==> m == guessed.value
    ensures (guessed.None? || guessed.value == []) && Lower(suffix) in MimeMap ==> m == MimeMap[Lower(suffix)]
    ensures (guessed.None? || guessed.value == []) && Lower(suffix) !in MimeMap ==> m == "application/octet-stream"
  {
    if guessed.Some? && guessed.value != [] then guessed.value
    else
      var s := Lower(suffix);
      if s in MimeMap then MimeMap[s] else "application/octet-stream"
  }

  /** Without a guess the answer is one of the five known types or the generic
      one, and the suffix's letter case does not matter. */
  lemma MimeFallbackSpec(suffix: string)
    ensures MimeType(None, suffix) in {"image/jpeg", "image/png", "image/tiff", "application/pdf", "application/octet-stream"}
    ensures MimeType(None, suffix) == MimeType(None, Lower(suffix))
  {
    LowerIdempotent(suffix);
  }

  lemma LowerIdempotent(s: string)
    ensures Lower(Lower(s)) == Lower(s)
  {
    forall k | 0 <= k < |s| ensures LowerChar(LowerChar(s[k])) == LowerChar(s[k]) {
      LowerCharIdempotent(s[k]);
    }
  }

  lemma LowerCharIdempotent(c: char)
    ensures LowerChar(LowerChar(c)) == LowerChar(c)
  {
  }

  /** `DocumentAIProcessor` without its client. */
  class DocumentAIProcessor {
    const projectId: string
    const processorId: string
    const location: string
    const processorName: string

    constructor (projectId: string, processorId: string, location: string := "us")
      ensures this.projectId == projectId && this.processorId == processorId && this.location == location
      ensures processorName == ProcessorName(projectId, location, processorId)
    {
      this.projectId := projectId;
      this.processorId := processorId;
      this.location := location;
      this.processorName := "projects/" + projectId + "/locations/" + location + "/processors/" + processorId;
    }
  }
}
