/** The structured-output helpers of test_document_ai/lib/form_parser_processor.py:
    text and coordinates of a layout, the form fields of every page keyed by
    their label, the entities grouped by type, and the combination of the two.
    The response is the JSON form of the document-analysis answer; a missing
    layout, list or value is its empty form. */
module FormParsing {
  import opened Common
  import opened Geometry
  import opened Dicts
  import Layout

  /** A `fieldName` / `fieldValue` layout: its text-anchor segments, its
      confidence and its normalised vertices. */
  datatype LayoutInfo = LayoutInfo(segments: seq<Layout.RawSegment>, confidence: Option<real>, vertices: seq<Vertex>)

  datatype RawFormField = RawFormField(fieldName: LayoutInfo, fieldValue: LayoutInfo)

  /** An entity; `normalizedValue` is `{}` when absent. */
  datatype RawEntity = RawEntity(entityType: Option<string>, mentionText: Option<string>, confidence: Option<real>,
                                 normalizedValue: map<string, string>)

  /** `response["document"]`: its text, the form fields of each page, its entities. */
  datatype FormResponse = FormResponse(text: Option<string>, pages: seq<seq<RawFormField>>, entities: seq<RawEntity>)

  function ResponseText(resp: FormResponse): string {
    match resp.text case Some(t) => t case None => ""
  }

  // ---------------------------------------------------------------------------
  // `_extract_text_from_layout`
  // ---------------------------------------------------------------------------

  /** One segment's slice of the full text. The start defaults to 0 and the end
      to the start. */
  function SegmentSlice(seg: Layout.RawSegment, fullText: string): string {
    var start := match seg.startIndex case Some(s) => s case None => 0;
    var end := match seg.endIndex case Some(e) => e case None => start;
    Slice(fullText, start, end)
  }

  /** The slices of all segments, in segment order. */
  function SegmentSlices(segs: seq<Layout.RawSegment>, fullText: string): (r: seq<string>)
    ensures |r| == |segs|
  {
    seq(|segs|, j requires 0 <= j < |segs| => SegmentSlice(segs[j], fullText))
  }

  /** The stripped slices that are not blank, in order. */
  function TextParts(slices: seq<string>): seq<string> {
    if slices == [] then []
    else
      var t := Strip(slices[|slices| - 1]);
      TextParts(slices[..|slices| - 1]) + (if t != [] then [t] else [])
  }

  function LayoutText(segs: seq<Layout.RawSegment>, fullText: string): string {
    if segs == [] then "" else Join(TextParts(SegmentSlices(segs, fullText)), " ")
  }

  /** Each part is non-blank and stripped, there is at most one per slice, and
      there are none exactly when every slice is blank. */
  lemma {:induction false} TextPartsSpec(slices: seq<string>)
    ensures var parts := TextParts(slices);
            && |parts| <= |slices|
            && (forall k :: 0 <= k < |parts| ==> parts[k] != [] && Strip(parts[k]) == parts[k])
            && (parts == [] <==> forall j :: 0 <= j < |slices| ==> Strip(slices[j]) == [])
  {
    TextPartsStripped(slices);
    TextPartsEmpty(slices);
  }

  lemma {:induction false} TextPartsStripped(slices: seq<string>)
    ensures var parts := TextParts(slices);
            |parts| <= |slices| && forall k :: 0 <= k < |parts| ==> parts[k] != [] && Strip(parts[k]) == parts[k]
  {
    if slices != [] {
      var n := |slices| - 1;
      TextPartsStripped(slices[..n]);
      StripIdempotent(slices[n]);
      var pre, t := TextParts(slices[..n]), Strip(slices[n]);
      var parts := TextParts(slices);
      assert parts == pre + (if t != [] then [t] else []);
      forall k | 0 <= k < |parts| ensures parts[k] != [] && Strip(parts[k]) == parts[k] {
        if k < |pre| {
          assert parts[k] == pre[k];
        }
      }
    }
  }

  lemma {:induction false} TextPartsEmpty(slices: seq<string>)
    ensures TextParts(slices) == [] <==> forall j :: 0 <= j < |slices| ==> Strip(slices[j]) == []
  {
    if slices != [] {
      var n := |slices| - 1;
      TextPartsEmpty(slices[..n]);
      assert forall j :: 0 <= j < n ==> slices[..n][j] == slices[j];
    }
  }

  /** The layout text carries no surrounding whitespace, is empty exactly when
      every segment is blank, and is the segment's own stripped slice when there
      is one segment. */
  lemma LayoutTextSpec(segs: seq<Layout.RawSegment>, fullText: string)
    ensures var r := LayoutText(segs, fullText);
            && Strip(r) == r
            && (r == [] <==> forall j :: 0 <= j < |segs| ==> Strip(SegmentSlice(segs[j], fullText)) == [])
            && (|segs| == 1 ==> r == Strip(SegmentSlice(segs[0], fullText)))
  {
    LayoutTextStripped(segs, fullText);
    LayoutTextEmpty(segs, fullText);
    if |segs| == 1 {
      LayoutTextSingle(segs[0], fullText);
      assert segs == [segs[0]];
    }
  }

  lemma LayoutTextSingle(seg: Layout.RawSegment, fullText: string)
    ensures LayoutText([seg], fullText) == Strip(SegmentSlice(seg, fullText))
  {
    var x := SegmentSlice(seg, fullText);
    var slices := SegmentSlices([seg], fullText);
    assert slices == [x];
    assert slices[..0] == [];
    var t := Strip(x);
    assert TextParts(slices) == if t != [] then [t] else [];
  }

  lemma LayoutTextStripped(segs: seq<Layout.RawSegment>, fullText: string)
    ensures Strip(LayoutText(segs, fullText)) == LayoutText(segs, fullText)
  {
    var slices := SegmentSlices(segs, fullText);
    TextPartsSpec(slices);
    var parts := TextParts(slices);
    if parts != [] {
      JoinEnds(parts, " ");
      var first, last := parts[0], parts[|parts| - 1];
      StripProperties(first);
      StripProperties(last);
    }
    StripUnchanged(LayoutText(segs, fullText));
  }

  lemma LayoutTextEmpty(segs: seq<Layout.RawSegment>, fullText: string)
    ensures LayoutText(segs, fullText) == [] <==> forall j :: 0 <= j < |segs| ==> Strip(SegmentSlice(segs[j], fullText)) == []
  {
    var slices := SegmentSlices(segs, fullText);
    TextPartsSpec(slices);
    var parts := TextParts(slices);
    if parts != [] {
      JoinEnds(parts, " ");
    }
    assert forall j :: 0 <= j < |segs| ==> slices[j] == SegmentSlice(segs[j], fullText);
  }

  /** `_extract_text_from_layout`. */
  method ExtractTextFromLayout(layout: LayoutInfo, fullText: string) returns (text: string)
    ensures text == LayoutText(layout.segments, fullText)
  {
    var segs := layout.segments;
    if segs == [] {
      return "";
    }
    ghost var slices := SegmentSlices(segs, fullText);
    var extracted: seq<string> := [];
    for i := 0 to |segs|
      invariant extracted == TextParts(slices[..i])
    {
      assert slices[..i + 1][..i] == slices[..i];
      var seg := segs[i];
      var startIdx := match seg.startIndex case Some(s) => s case None => 0;
      var endIdx := match seg.endIndex case Some(e) => e case None => startIdx;
      var t := Strip(Slice(fullText, startIdx, endIdx));
      assert t == Strip(slices[i]);
      if t != [] {
        extracted := extracted + [t];
      }
    }
    assert slices[..|segs|] == slices;
    text := Join(extracted, " ");
  }

  // ---------------------------------------------------------------------------
  // `extract_form_fields_from_response`
  // ---------------------------------------------------------------------------

  /** One form-field entry; the coordinates are `_extract_coordinates_from_layout`,
      which is `Geometry.NormalizedBox` (None for `{}`). */
  datatype FieldEntry = FieldEntry(name: string, value: string, nameConfidence: real, valueConfidence: real,
                                   nameCoords: Option<Box>, valueCoords: Option<Box>)

  function Entry(f: RawFormField, fullText: string): FieldEntry {
    FieldEntry(LayoutText(f.fieldName.segments, fullText), LayoutText(f.fieldValue.segments, fullText),
               match f.fieldName.confidence case Some(c) => c case None => 0.0,
               match f.fieldValue.confidence case Some(c) => c case None => 0.0,
               NormalizedBox(f.fieldName.vertices), NormalizedBox(f.fieldValue.vertices))
  }

  /** A field with neither a label nor a value is skipped. */
  predicate Kept(e: FieldEntry) {
    e.name != [] || e.value != []
  }

  /** The entry's key: its label, or `フィールド_<idx>` when it has none. */
  function FieldKeyOf(name: string, idx: nat): string {
    if name != [] then name else "フィールド_" + NatToString(idx)
  }

  /** Every form field's entry, in page order. */
  function Entries(fs: seq<RawFormField>, fullText: string): (es: seq<FieldEntry>)
    ensures |es| == |fs|
  {
    seq(|fs|, j requires 0 <= j < |fs| => Entry(fs[j], fullText))
  }

  /** The kept entries keyed, in order, as a specification. */
  function Keyed(es: seq<FieldEntry>): seq<(string, FieldEntry)> {
    if es == [] then []
    else
      var n := |es| - 1;
      var d := Keyed(es[..n]);
      if Kept(es[n]) then Put(d, FieldKeyOf(es[n].name, n), es[n]) else d
  }

  /** The fields of one page, keyed. */
  function PageFields(fs: seq<RawFormField>, fullText: string): seq<(string, FieldEntry)> {
    Keyed(Entries(fs, fullText))
  }

  /** Entry `j` is kept under key `k`. */
  predicate KeptAs(es: seq<FieldEntry>, j: int, k: string)
    requires 0 <= j < |es|
  {
    Kept(es[j]) && FieldKeyOf(es[j].name, j) == k
  }

  /** A key is present exactly when some kept field has it. */
  lemma {:induction false} KeyedKeys(es: seq<FieldEntry>, k: string)
    ensures Lookup(Keyed(es), k).Some? <==> exists j :: 0 <= j < |es| && KeptAs(es, j, k)
  {
    if es != [] {
      var n := |es| - 1;
      var d := Keyed(es[..n]);
      KeyedKeys(es[..n], k);
      if Kept(es[n]) {
        PutLookup(d, FieldKeyOf(es[n].name, n), es[n], k);
      }
      if Lookup(d, k).Some? {
        var j :| 0 <= j < n && KeptAs(es[..n], j, k);
        assert es[..n][j] == es[j];
        assert KeptAs(es, j, k);
      } else if Lookup(Keyed(es), k).Some? {
        assert Kept(es[n]) && FieldKeyOf(es[n].name, n) == k;
        assert KeptAs(es, n, k);
      }
      if exists j :: 0 <= j < |es| && KeptAs(es, j, k) {
        var j :| 0 <= j < |es| && KeptAs(es, j, k);
        if j < n {
          assert es[..n][j] == es[j];
          assert KeptAs(es[..n], j, k);
        } else {
          assert Kept(es[n]) && FieldKeyOf(es[n].name, n) == k;
        }
        assert Lookup(Keyed(es), k).Some?;
      }
    }
  }

  /** The entry under a key is that of the last kept field with that key: a
      later field of the same label overwrites an earlier one. */
  lemma {:induction false} KeyedLastWins(es: seq<FieldEntry>, k: string, j: nat)
    requires j < |es| && KeptAs(es, j, k)
    requires forall j' :: j < j' < |es| ==> !KeptAs(es, j', k)
    ensures Lookup(Keyed(es), k) == Some(es[j])
  {
    var n := |es| - 1;
    var d := Keyed(es[..n]);
    if Kept(es[n]) {
      PutLookup(d, FieldKeyOf(es[n].name, n), es[n], k);
    }
    if j < n {
      assert !KeptAs(es, n, k);
      forall j' | j < j' < n ensures !KeptAs(es[..n], j', k) {
        assert es[..n][j'] == es[j'];
        assert !KeptAs(es, j', k);
      }
      assert es[..n][j] == es[j];
      KeyedLastWins(es[..n], k, j);
    }
  }

  /** A page has unique keys and no more entries than fields. */
  lemma {:induction false} KeyedShape(es: seq<FieldEntry>)
    ensures UniqueKeys(Keyed(es)) && |Keyed(es)| <= |es|
  {
    if es != [] {
      var n := |es| - 1;
      var d := Keyed(es[..n]);
      KeyedShape(es[..n]);
      if Kept(es[n]) {
        PutUnique(d, FieldKeyOf(es[n].name, n), es[n]);
        PutKeys(d, FieldKeyOf(es[n].name, n), es[n]);
        assert |KeysOf(Put(d, FieldKeyOf(es[n].name, n), es[n]))| <= |KeysOf(d)| + 1;
      }
    }
  }

  /** `ページ_<idx + 1>`. */
  function PageKey(idx: nat): string {
    "ページ_" + NatToString(idx + 1)
  }

  lemma PageKeyInjective(a: nat, b: nat)
    requires PageKey(a) == PageKey(b)
    ensures a == b
  {
    var p := "ページ_";
    assert PageKey(a)[|p|..] == NatToString(a + 1);
    assert PageKey(b)[|p|..] == NatToString(b + 1);
    NatToStringInjective(a + 1, b + 1);
  }

  /** The non-empty page dictionaries keyed by page, as a specification. */
  function PagesOf<V>(pds: seq<seq<V>>): seq<(string, seq<V>)> {
    if pds == [] then []
    else
      var n := |pds| - 1;
      var d := PagesOf(pds[..n]);
      if pds[n] != [] then Put(d, PageKey(n), pds[n]) else d
  }

  /** Every page's dictionary, in page order. */
  function PageDicts(pages: seq<seq<RawFormField>>, fullText: string): (pds: seq<seq<(string, FieldEntry)>>)
    ensures |pds| == |pages|
  {
    seq(|pages|, i requires 0 <= i < |pages| => PageFields(pages[i], fullText))
  }

  function PagesFields(pages: seq<seq<RawFormField>>, fullText: string): seq<(string, seq<(string, FieldEntry)>)> {
    PagesOf(PageDicts(pages, fullText))
  }

  /** The sum of the lengths. */
  function SizeSum<V>(pds: seq<seq<V>>): nat {
    if pds == [] then 0 else SizeSum(pds[..|pds| - 1]) + |pds[|pds| - 1]|
  }

  /** Page `i` appears, under `ページ_<i + 1>` and with its own dictionary,
      exactly when that dictionary is non-empty; every key is such a page key;
      keys are unique; and nothing is counted twice. */
  lemma {:induction false} PagesOfSpec<V>(pds: seq<seq<V>>)
    ensures var d := PagesOf(pds);
            && UniqueKeys(d)
            && (forall i :: 0 <= i < |pds| ==> Lookup(d, PageKey(i)) == if pds[i] != [] then Some(pds[i]) else None)
            && (forall m :: 0 <= m < |d| ==> exists i :: 0 <= i < |pds| && d[m].0 == PageKey(i))
            && TotalSize(d) == SizeSum(pds)
  {
    PagesOfKeys(pds);
    PagesOfUnique(pds);
    PagesOfLookups(pds);
    PagesOfSize(pds);
  }

  lemma {:induction false} PagesOfKeys<V>(pds: seq<seq<V>>)
    ensures PageKeysBelow(PagesOf(pds), |pds|)
  {
    if pds != [] {
      var n := |pds| - 1;
      var d0 := PagesOf(pds[..n]);
      PagesOfKeys(pds[..n]);
      PageKeyFresh(d0, n);
      if pds[n] != [] {
        PutPageKeys(d0, n, pds[n]);
      } else {
        forall m | 0 <= m < |d0| ensures exists i :: 0 <= i < n + 1 && d0[m].0 == PageKey(i) {
          var i :| 0 <= i < n && d0[m].0 == PageKey(i);
        }
      }
    }
  }

  lemma {:induction false} PagesOfUnique<V>(pds: seq<seq<V>>)
    ensures UniqueKeys(PagesOf(pds))
  {
    if pds != [] {
      var n := |pds| - 1;
      PagesOfUnique(pds[..n]);
      if pds[n] != [] {
        PutUnique(PagesOf(pds[..n]), PageKey(n), pds[n]);
      }
    }
  }

  lemma {:induction false} PagesOfLookups<V>(pds: seq<seq<V>>)
    ensures PageLookups(PagesOf(pds), pds)
  {
    if pds != [] {
      var n := |pds| - 1;
      var d0 := PagesOf(pds[..n]);
      PagesOfLookups(pds[..n]);
      PagesOfKeys(pds[..n]);
      PageKeyFresh(d0, n);
      PageLookupsStep(d0, pds);
    }
  }

  lemma {:induction false} PagesOfSize<V>(pds: seq<seq<V>>)
    ensures TotalSize(PagesOf(pds)) == SizeSum(pds)
  {
    if pds != [] {
      var n := |pds| - 1;
      var d0 := PagesOf(pds[..n]);
      PagesOfSize(pds[..n]);
      if pds[n] != [] {
        PagesOfKeys(pds[..n]);
        PageKeyFresh(d0, n);
        PutTotalSize(d0, PageKey(n), pds[n]);
      }
    }
  }

  /** Page `i` reads its own dictionary when that is non-empty, and nothing otherwise. */
  ghost predicate PageLookups<V>(d: seq<(string, seq<V>)>, pds: seq<seq<V>>) {
    forall i :: 0 <= i < |pds| ==> Lookup(d, PageKey(i)) == if pds[i] != [] then Some(pds[i]) else None
  }

  /** Adding the last page (when its dictionary is non-empty) extends the
      lookups to it and leaves every other page's entry as it was. */
  lemma PageLookupsStep<V>(d0: seq<(string, seq<V>)>, pds: seq<seq<V>>)
    requires pds != [] && PageLookups(d0, pds[..|pds| - 1]) && Lookup(d0, PageKey(|pds| - 1)).None?
    ensures var n := |pds| - 1;
            PageLookups(if pds[n] != [] then Put(d0, PageKey(n), pds[n]) else d0, pds)
  {
    var n := |pds| - 1;
    var d := if pds[n] != [] then Put(d0, PageKey(n), pds[n]) else d0;
    forall i | 0 <= i < |pds|
      ensures Lookup(d, PageKey(i)) == if pds[i] != [] then Some(pds[i]) else None
    {
      if i < n {
        assert pds[..n][i] == pds[i];
      }
      if pds[n] != [] {
        PutLookup(d0, PageKey(n), pds[n], PageKey(i));
        if i != n && PageKey(i) == PageKey(n) {
          PageKeyInjective(i, n);
        }
      }
    }
  }

  /** Every key of `d` is the key of a page before `n`. */
  predicate PageKeysBelow<V>(d: seq<(string, V)>, n: nat) {
    forall m :: 0 <= m < |d| ==> exists i :: 0 <= i < n && d[m].0 == PageKey(i)
  }

  lemma PageKeyFresh<V>(d: seq<(string, V)>, n: nat)
    requires PageKeysBelow(d, n)
    ensures Lookup(d, PageKey(n)).None?
  {
    LookupFound(d, PageKey(n));
    if PageKey(n) in KeysOf(d) {
      var m :| 0 <= m < |d| && KeysOf(d)[m] == PageKey(n);
      var i :| 0 <= i < n && d[m].0 == PageKey(i);
      PageKeyInjective(i, n);
    }
  }

  lemma PutPageKeys<V>(d: seq<(string, V)>, n: nat, v: V)
    requires PageKeysBelow(d, n) && Lookup(d, PageKey(n)).None?
    ensures PageKeysBelow(Put(d, PageKey(n), v), n + 1)
  {
    var r := Put(d, PageKey(n), v);
    LookupFound(d, PageKey(n));
    PutKeys(d, PageKey(n), v);
    forall m | 0 <= m < |r| ensures exists i :: 0 <= i < n + 1 && r[m].0 == PageKey(i) {
      assert KeysOf(r)[m] == r[m].0;
      if m < |d| {
        assert KeysOf(d)[m] == d[m].0;
      }
    }
  }

  /** The number of form fields in the response. */
  function RawFieldCount(pages: seq<seq<RawFormField>>): nat {
    if pages == [] then 0 else RawFieldCount(pages[..|pages| - 1]) + |pages[|pages| - 1]|
  }

  /** The pages hold no more entries than there are form fields. */
  lemma {:induction false} PageDictsSize(pages: seq<seq<RawFormField>>, fullText: string)
    ensures SizeSum(PageDicts(pages, fullText)) <= RawFieldCount(pages)
  {
    if pages != [] {
      var n := |pages| - 1;
      PageDictsSize(pages[..n], fullText);
      assert PageDicts(pages, fullText)[..n] == PageDicts(pages[..n], fullText);
      KeyedShape(Entries(pages[n], fullText));
    }
  }

  /** The per-page counts. */
  function Counts(d: seq<(string, seq<(string, FieldEntry)>)>): seq<(string, nat)> {
    if d == [] then [] else [(d[0].0, |d[0].1|)] + Counts(d[1..])
  }

  function SumCounts(c: seq<(string, nat)>): nat {
    if c == [] then 0 else c[0].1 + SumCounts(c[1..])
  }

  /** The total is the sum of the per-page counts. */
  lemma {:induction false} CountsSum(d: seq<(string, seq<(string, FieldEntry)>)>)
    ensures SumCounts(Counts(d)) == TotalSize(d) && KeysOf(d) == seq(|Counts(d)|, i requires 0 <= i < |Counts(d)| => Counts(d)[i].0)
  {
    if d != [] {
      CountsSum(d[1..]);
    }
  }

  datatype FormFieldsInfo = FormFieldsInfo(processedAt: string, pageCount: nat, textLength: nat)
  datatype FormFieldsStats = FormFieldsStats(totalFields: nat, perPage: seq<(string, nat)>)
  datatype FormFieldsOutput =
    | FormFieldsError(error: string)
    | FormFieldsOutput(info: FormFieldsInfo, fields: seq<(string, seq<(string, FieldEntry)>)>, stats: FormFieldsStats)

  /** `extract_form_fields_from_response`, as a specification; the time stamp is
      a parameter. */
  function FormFields(resp: FormResponse, processedAt: string): FormFieldsOutput {
    if resp.pages == [] then FormFieldsError("No pages found")
    else
      var text := ResponseText(resp);
      var ex := PagesFields(resp.pages, text);
      FormFieldsOutput(FormFieldsInfo(processedAt, |resp.pages|, |text|), ex, FormFieldsStats(TotalSize(ex), Counts(ex)))
  }

  /** The field loop of one page. */
  method ExtractPageFields(fs: seq<RawFormField>, fullText: string) returns (pageFields: seq<(string, FieldEntry)>)
    ensures pageFields == PageFields(fs, fullText)
  {
    ghost var es := Entries(fs, fullText);
    pageFields := [];
    for j := 0 to |fs|
      invariant pageFields == Keyed(es[..j])
    {
      assert es[..j + 1][..j] == es[..j];
      var nameText := ExtractTextFromLayout(fs[j].fieldName, fullText);
      var valueText := ExtractTextFromLayout(fs[j].fieldValue, fullText);
      var e := Entry(fs[j], fullText);
      assert e == es[j];
      if nameText != [] || valueText != [] {
        var fieldKey := if nameText != [] then nameText else "フィールド_" + NatToString(j);
        pageFields := Put(pageFields, fieldKey, e);
      }
    }
    assert es[..|fs|] == es;
  }

  /** `extract_form_fields_from_response`. */
  method ExtractFormFieldsFromResponse(resp: FormResponse, processedAt: string) returns (out: FormFieldsOutput)
    ensures out == FormFields(resp, processedAt)
    ensures out.FormFieldsOutput? ==>
              out.stats.totalFields == SumCounts(out.stats.perPage) && out.stats.totalFields <= RawFieldCount(resp.pages)
  {
    var pages := resp.pages;
    if pages == [] {
      return FormFieldsError("No pages found");
    }
    var text := ResponseText(resp);
    ghost var pds := PageDicts(pages, text);
    var extracted: seq<(string, seq<(string, FieldEntry)>)> := [];
    for i := 0 to |pages|
      invariant extracted == PagesOf(pds[..i])
    {
      assert pds[..i + 1][..i] == pds[..i];
      var pageFields := ExtractPageFields(pages[i], text);
      assert pageFields == pds[i];
      if pageFields != [] {
        extracted := Put(extracted, PageKey(i), pageFields);
      }
    }
    assert pds[..|pages|] == pds;
    CountsSum(extracted);
    PagesOfSpec(pds);
    PageDictsSize(pages, text);
    out := FormFieldsOutput(FormFieldsInfo(processedAt, |pages|, |text|), extracted,
                            FormFieldsStats(TotalSize(extracted), Counts(extracted)));
  }

  // ---------------------------------------------------------------------------
  // `extract_entities_from_response`
  // ---------------------------------------------------------------------------

  /** One entity's entry; `正規化値` is present only for a non-empty normalised value. */
  datatype EntityInfo = EntityInfo(text: string, confidence: real, normalized: Option<map<string, string>>)

  function TypeOf(e: RawEntity): string {
    match e.entityType case Some(t) => t case None => "Unknown"
  }

  function InfoOf(e: RawEntity): EntityInfo {
    EntityInfo(match e.mentionText case Some(t) => t case None => "",
               match e.confidence case Some(c) => c case None => 0.0,
               if e.normalizedValue != map[] then Some(e.normalizedValue) else None)
  }

  /** The entities grouped by type, as a specification. */
  function Groups(es: seq<RawEntity>): seq<(string, seq<EntityInfo>)> {
    if es == [] then [] else AppendTo(Groups(es[..|es| - 1]), TypeOf(es[|es| - 1]), InfoOf(es[|es| - 1]))
  }

  /** Reference definition: the entries of the entities of type `t`, in input order. */
  function OfType(es: seq<RawEntity>, t: string): seq<EntityInfo> {
    if es == [] then []
    else OfType(es[..|es| - 1], t) + (if TypeOf(es[|es| - 1]) == t then [InfoOf(es[|es| - 1])] else [])
  }

  /** Reference definition: the types in order of first appearance. */
  function FirstTypes(es: seq<RawEntity>): seq<string> {
    if es == [] then []
    else
      var ts := FirstTypes(es[..|es| - 1]);
      var t := TypeOf(es[|es| - 1]);
      if t in ts then ts else ts + [t]
  }

  /** Each type's group holds exactly the entries of that type in input order,
      and a type with no entity has no group. */
  lemma {:induction false} GroupsLookup(es: seq<RawEntity>, t: string)
    ensures Lookup(Groups(es), t) == if OfType(es, t) == [] then None else Some(OfType(es, t))
  {
    if es != [] {
      var n := |es| - 1;
      GroupsLookup(es[..n], t);
      var d := Groups(es[..n]);
      var k := TypeOf(es[n]);
      var v := (match Lookup(d, k) case Some(xs) => xs case None => []) + [InfoOf(es[n])];
      assert Groups(es) == Put(d, k, v);
      PutLookup(d, k, v, t);
      var front := OfType(es[..n], t);
      assert OfType(es, t) == front + (if k == t then [InfoOf(es[n])] else []);
      if k == t {
        assert (match Lookup(d, k) case Some(xs) => xs case None => []) == front;
        assert Lookup(Groups(es), t) == Some(front + [InfoOf(es[n])]);
      } else {
        assert Lookup(Groups(es), t) == Lookup(d, t);
        assert front + [] == front;
        assert OfType(es, t) == front;
      }
    } else {
      assert Groups(es) == [] && OfType(es, t) == [];
    }
  }

  /** The groups come in order of first appearance, with unique types, and
      together hold every entity once. */
  lemma {:induction false} GroupsShape(es: seq<RawEntity>)
    ensures KeysOf(Groups(es)) == FirstTypes(es)
    ensures UniqueKeys(Groups(es))
    ensures TotalSize(Groups(es)) == |es|
  {
    if es != [] {
      var n := |es| - 1;
      GroupsShape(es[..n]);
      var d := Groups(es[..n]);
      var k := TypeOf(es[n]);
      var v := (match Lookup(d, k) case Some(xs) => xs case None => []) + [InfoOf(es[n])];
      PutKeys(d, k, v);
      PutUnique(d, k, v);
      PutTotalSize(d, k, v);
    }
  }

  /** The first-appearance list has no repeats and holds exactly the types that occur. */
  lemma {:induction false} FirstTypesSpec(es: seq<RawEntity>, t: string)
    ensures t in FirstTypes(es) <==> exists i :: 0 <= i < |es| && TypeOf(es[i]) == t
    ensures forall a, b :: 0 <= a < b < |FirstTypes(es)| ==> FirstTypes(es)[a] != FirstTypes(es)[b]
  {
    if es != [] {
      var n := |es| - 1;
      FirstTypesSpec(es[..n], t);
      if exists i :: 0 <= i < n && TypeOf(es[..n][i]) == t {
        var i :| 0 <= i < n && TypeOf(es[..n][i]) == t;
        assert es[..n][i] == es[i];
      }
      if exists i :: 0 <= i < |es| && TypeOf(es[i]) == t {
        var i :| 0 <= i < |es| && TypeOf(es[i]) == t;
        if i < n {
          assert es[..n][i] == es[i];
        }
      }
    }
  }

  datatype EntityStats = EntityStats(typeCount: nat, total: nat, typeList: seq<string>)
  datatype EntitiesOutput =
    | NoEntities(message: string)
    | EntitiesOutput(groups: seq<(string, seq<EntityInfo>)>, stats: EntityStats)

  /** `extract_entities_from_response`, as a specification. */
  function Entities(resp: FormResponse): EntitiesOutput {
    if resp.entities == [] then NoEntities("No entities found")
    else
      var g := Groups(resp.entities);
      EntitiesOutput(g, EntityStats(|g|, TotalSize(g), KeysOf(g)))
  }

  /** `extract_entities_from_response`. */
  method ExtractEntitiesFromResponse(resp: FormResponse) returns (out: EntitiesOutput)
    ensures out == Entities(resp)
    ensures out.EntitiesOutput? ==> out.stats.total == |resp.entities| && out.stats.typeList == FirstTypes(resp.entities)
  {
    var es := resp.entities;
    if es == [] {
      return NoEntities("No entities found");
    }
    var groups: seq<(string, seq<EntityInfo>)> := [];
    for i := 0 to |es|
      invariant groups == Groups(es[..i])
    {
      assert es[..i + 1][..i] == es[..i];
      groups := AppendTo(groups, TypeOf(es[i]), InfoOf(es[i]));
    }
    assert es[..|es|] == es;
    GroupsShape(es);
    out := EntitiesOutput(groups, EntityStats(|groups|, TotalSize(groups), KeysOf(groups)));
  }

  // ---------------------------------------------------------------------------
  // `create_combined_structured_output`
  // ---------------------------------------------------------------------------

  /** The combined map; the parts the sub-results lack (`.get(..., {})`) are None
      or empty. */
  datatype Combined = Combined(info: Option<FormFieldsInfo>,
                               formFields: seq<(string, seq<(string, FieldEntry)>)>,
                               entities: seq<(string, seq<EntityInfo>)>,
                               formStats: Option<FormFieldsStats>,
                               entityStats: Option<EntityStats>)

  function CombinedOutput(resp: FormResponse, processedAt: string): Combined {
    var f := FormFields(resp, processedAt);
    var e := Entities(resp);
    Combined(if f.FormFieldsOutput? then Some(f.info) else None,
             if f.FormFieldsOutput? then f.fields else [],
             if e.EntitiesOutput? then e.groups else [],
             if f.FormFieldsOutput? then Some(f.stats) else None,
             if e.EntitiesOutput? then Some(e.stats) else None)
  }

  /** What the combined output promises about the response: form parts exactly
      when there are pages, with a total that matches the pages it lists; entity
      statistics exactly when there are entities, counting every entity once;
      and each type's group is the entries of that type in input order. */
  lemma CombinedOutputSpec(resp: FormResponse, processedAt: string, t: string)
    ensures var c := CombinedOutput(resp, processedAt);
            && (c.info.Some? <==> resp.pages != [])
            && (c.formStats.Some? ==> c.formStats.value.totalFields == TotalSize(c.formFields) <= RawFieldCount(resp.pages)
                                      && c.formStats.value.totalFields == SumCounts(c.formStats.value.perPage))
            && (c.entityStats.Some? <==> resp.entities != [])
            && (c.entityStats.Some? ==> c.entityStats.value.total == |resp.entities|
                                        && c.entityStats.value.typeCount == |FirstTypes(resp.entities)|)
            && Lookup(c.entities, t) == if OfType(resp.entities, t) == [] then None else Some(OfType(resp.entities, t))
  {
    var text := ResponseText(resp);
    PagesOfSpec(PageDicts(resp.pages, text));
    PageDictsSize(resp.pages, text);
    CountsSum(PagesFields(resp.pages, text));
    GroupsShape(resp.entities);
    GroupsLookup(resp.entities, t);
  }
}
