/** `FormFieldExtractor` (test_document_ai/lib/form_processor.py): keyword-driven
    field extraction over the tokens of the first page, region bucketing by
    token centre, per-token pattern hits and the final summary. The regular
    expression engine is an oracle: `Search` stands for `re.search(pattern, text)`
    and returns the span of the first match, if any. */
module FormProcessor {
  import opened Common
  import opened Geometry
  import opened Layout
  import opened Validators
  import opened Ranking
  import opened Dicts

  type Search = (string, string) -> Option<Span>

  /** A closed rectangle of `coordinate_fields`, in normalised coordinates. */
  datatype Area = Area(xMin: real, yMin: real, xMax: real, yMax: real)

  /** An entry of `form_fields`: its name, `keywords`, `context_keywords` and `field_type`. */
  datatype FieldDef = FieldDef(name: string, keywords: seq<string>, contextKeywords: seq<string>, fieldType: string)

  /** The field definitions: the coordinate areas and the form fields, in
      dictionary order. */
  datatype Definitions = Definitions(areas: seq<(string, Area)>, formFields: seq<FieldDef>)

  /** What `_extract_field_value_from_context` returns: the stripped text, the
      token's confidence and coordinates, and the `method` tag. */
  datatype FoundValue = FoundValue(text: string, confidence: real, coords: Option<Box>, tag: string)

  /** Which keyword produced a candidate: `keyword_matched` or `context_keyword_matched`. */
  datatype Trigger = KeywordMatched(keyword: string) | ContextKeywordMatched(contextKeyword: string)

  /** An entry of a field's `values` list. */
  datatype FormCandidate = FormCandidate(value: string, confidence: real, coords: Option<Box>, trigger: Trigger, tag: string)

  /** A field's result: `field_type`, `found_count`, `values` and `best_match`. */
  datatype FieldInfo = FieldInfo(fieldType: string, foundCount: nat, values: seq<FormCandidate>, best: FormCandidate)

  // ---------------------------------------------------------------------------
  // The default definitions (`_get_default_field_definitions`)
  // ---------------------------------------------------------------------------

  const DefaultDefinitions: Definitions := Definitions(
    [("header_area", Area(0.0, 0.0, 1.0, 0.3)),
     ("body_area", Area(0.0, 0.3, 1.0, 0.8)),
     ("footer_area", Area(0.0, 0.8, 1.0, 1.0))],
    [FieldDef("氏名", ["氏名", "名前", "姓名", "申請者名", "担当者名", "お名前"], ["様", "殿", "氏"], "person_name"),
     FieldDef("金額", ["金額", "料金", "価格", "合計", "小計", "税込", "税抜"], ["円", "￥", "¥", "万円", "千円"], "amount"),
     FieldDef("住所", ["住所", "所在地", "居住地", "連絡先", "郵便番号"], ["県", "市", "町", "村", "丁目", "番地", "号"], "address"),
     FieldDef("電話番号", ["電話番号", "TEL", "Tel", "携帯", "連絡先"], ["-", "－", "（", "）"], "phone"),
     FieldDef("日付", ["日付", "年月日", "作成日", "申請日", "提出日"], ["令和", "平成", "年", "月", "日"], "date"),
     FieldDef("会社名", ["会社名", "法人名", "団体名", "組織名", "所属"], ["株式会社", "有限会社", "合同会社", "㈱", "㈲", "法人"], "company"),
     FieldDef("部署", ["部署", "部門", "課", "部", "係", "室", "グループ"], ["所属", "担当"], "department"),
     FieldDef("メールアドレス", ["メール", "email", "E-mail", "電子メール"], ["@", ".com", ".jp", ".net"], "email")])

  // ---------------------------------------------------------------------------
  // Looking for a value next to a keyword (`_extract_field_value_from_context`)
  // ---------------------------------------------------------------------------

  /** The searched window `[lo, hi)`: after a keyword, the (at most four) tokens
      `keyword_idx + 1 .. keyword_idx + 4`; before a context keyword, the five
      tokens preceding it. */
  function WindowLo(i: int, reverse: bool): int {
    if reverse then (if i - 5 > 0 then i - 5 else 0) else i + 1
  }

  function WindowHi(i: int, n: int, reverse: bool): int {
    if reverse then i else if n < i + 5 then n else i + 5
  }

  /** The forward window holds at most four tokens and the reverse one at most
      five; neither contains the keyword's own token, and both lie inside the
      token list. */
  lemma WindowBounds(i: int, n: int, reverse: bool)
    requires 0 <= i < n
    ensures 0 <= WindowLo(i, reverse) && WindowHi(i, n, reverse) <= n
    ensures WindowHi(i, n, reverse) - WindowLo(i, reverse) <= (if reverse then 5 else 4)
    ensures !(WindowLo(i, reverse) <= i < WindowHi(i, n, reverse))
    ensures reverse ==> WindowHi(i, n, reverse) == i && (i >= 5 ==> WindowLo(i, reverse) == i - 5)
    ensures !reverse ==> WindowLo(i, reverse) == i + 1 && (i + 5 <= n ==> WindowHi(i, n, reverse) == i + 5)
  {
  }

  /** A token whose stripped text is non-empty and valid for the field type. */
  predicate Usable(t: Token, fieldType: string) {
    var s := Strip(t.text);
    s != [] && FormValid(s, fieldType)
  }

  /** The test the window scan applies to each token. */
  function UsableFor(fieldType: string): Token -> bool {
    t => Usable(t, fieldType)
  }

  /** The first index of `[lo, hi)` whose token passes `test`. */
  function FirstWhere(tokens: seq<Token>, test: Token -> bool, lo: int, hi: int): (r: Option<nat>)
    requires 0 <= lo && hi <= |tokens|
    ensures r.Some? ==> lo <= r.value < hi
    decreases hi - lo
  {
    if lo >= hi then None
    else if test(tokens[lo]) then Some(lo)
    else FirstWhere(tokens, test, lo + 1, hi)
  }

  /** The index found passes the test and every index before it in the range
      fails it; when none is found, every index of the range fails it. */
  lemma {:induction false} FirstWhereSpec(tokens: seq<Token>, test: Token -> bool, lo: int, hi: int)
    requires 0 <= lo && hi <= |tokens|
    ensures var r := FirstWhere(tokens, test, lo, hi);
            && (r.Some? ==> test(tokens[r.value]))
            && (r.Some? ==> forall j :: lo <= j < r.value ==> !test(tokens[j]))
            && (r.None? ==> forall j :: lo <= j < hi ==> !test(tokens[j]))
    decreases hi - lo
  {
    if lo < hi && !test(tokens[lo]) {
      FirstWhereSpec(tokens, test, lo + 1, hi);
    }
  }

  /** The value found around token `i`, as a specification. */
  function ValueFromContext(tokens: seq<Token>, i: nat, fieldType: string, reverse: bool): Option<FoundValue>
    requires i < |tokens|
  {
    WindowBounds(i, |tokens|, reverse);
    match FirstWhere(tokens, UsableFor(fieldType), WindowLo(i, reverse), WindowHi(i, |tokens|, reverse))
    case None => None
    case Some(j) => Some(FoundValue(Strip(tokens[j].text), tokens[j].confidence, tokens[j].coords, fieldType + "_pattern_match"))
  }

  /** What a found value is: the stripped text of the earliest usable token of
      the window (so the reverse search yields the earliest, not the nearest,
      valid token), with that token's confidence and coordinates; None when no
      token of the window is usable. */
  lemma ValueFromContextSpec(tokens: seq<Token>, i: nat, fieldType: string, reverse: bool)
    requires i < |tokens|
    ensures var lo, hi := WindowLo(i, reverse), WindowHi(i, |tokens|, reverse);
            match ValueFromContext(tokens, i, fieldType, reverse)
            case None => forall j :: lo <= j < hi ==> !Usable(tokens[j], fieldType)
            case Some(v) =>
              exists j :: lo <= j < hi && Usable(tokens[j], fieldType)
                && (forall l :: lo <= l < j ==> !Usable(tokens[l], fieldType))
                && v == FoundValue(Strip(tokens[j].text), tokens[j].confidence, tokens[j].coords, fieldType + "_pattern_match")
  {
    WindowBounds(i, |tokens|, reverse);
    var lo, hi := WindowLo(i, reverse), WindowHi(i, |tokens|, reverse);
    var test := UsableFor(fieldType);
    var r := FirstWhere(tokens, test, lo, hi);
    FirstWhereSpec(tokens, test, lo, hi);
    if r.Some? {
      var j := r.value;
      assert test(tokens[j]);
      forall l | lo <= l < j ensures !Usable(tokens[l], fieldType) {
        assert !test(tokens[l]);
      }
    } else {
      forall l | lo <= l < hi ensures !Usable(tokens[l], fieldType) {
        assert !test(tokens[l]);
      }
    }
  }

  /** A found value is non-blank, already stripped and valid for its type. */
  lemma FoundValueValid(tokens: seq<Token>, i: nat, fieldType: string, reverse: bool)
    requires i < |tokens| && ValueFromContext(tokens, i, fieldType, reverse).Some?
    ensures var v := ValueFromContext(tokens, i, fieldType, reverse).value;
            v.text != [] && Strip(v.text) == v.text && FormValid(v.text, fieldType)
  {
    WindowBounds(i, |tokens|, reverse);
    var test := UsableFor(fieldType);
    FirstWhereSpec(tokens, test, WindowLo(i, reverse), WindowHi(i, |tokens|, reverse));
    var j := FirstWhere(tokens, test, WindowLo(i, reverse), WindowHi(i, |tokens|, reverse)).value;
    assert test(tokens[j]);
    StripIdempotent(tokens[j].text);
  }

  /** One step of the scan: the first passing index from `j` on is `j` itself
      or the first one after it. */
  lemma FirstWhereStep(tokens: seq<Token>, test: Token -> bool, j: int, hi: int)
    requires 0 <= j < hi <= |tokens|
    ensures FirstWhere(tokens, test, j, hi) == if test(tokens[j]) then Some(j) else FirstWhere(tokens, test, j + 1, hi)
  {
  }

  /** The scan of `_extract_field_value_from_context`: the index of the first
      token of `tokens[lo..hi]` that passes the test. */
  method FirstWhereIndex(tokens: seq<Token>, test: Token -> bool, lo: nat, hi: nat) returns (k: Option<nat>)
    requires hi <= |tokens|
    ensures k == FirstWhere(tokens, test, lo, hi)
  {
    var j := lo;
    while j < hi
      invariant lo <= j && (lo <= hi ==> j <= hi)
      invariant FirstWhere(tokens, test, lo, hi) == FirstWhere(tokens, test, j, hi)
    {
      FirstWhereStep(tokens, test, j, hi);
      if test(tokens[j]) {
        return Some(j);
      }
      j := j + 1;
    }
    return None;
  }

  /** `_extract_field_value_from_context`: scan the window for the first token
      whose stripped text is non-blank and valid, and return that text. (Its
      context-keyword argument is never read.) */
  method ExtractFieldValueFromContext(tokens: seq<Token>, keywordIdx: nat, fieldType: string, reverse: bool)
    returns (r: Option<FoundValue>)
    requires keywordIdx < |tokens|
    ensures r == ValueFromContext(tokens, keywordIdx, fieldType, reverse)
  {
    WindowBounds(keywordIdx, |tokens|, reverse);
    var k := FirstWhereIndex(tokens, UsableFor(fieldType), WindowLo(keywordIdx, reverse), WindowHi(keywordIdx, |tokens|, reverse));
    match k
    case None => r := None;
    case Some(j) =>
      r := Some(FoundValue(Strip(tokens[j].text), tokens[j].confidence, tokens[j].coords, fieldType + "_pattern_match"));
  }
  // ---------------------------------------------------------------------------
  // One form field (`_extract_single_field`)
  // ---------------------------------------------------------------------------

  function Candidate(v: FoundValue, trigger: Trigger): FormCandidate {
    FormCandidate(v.text, v.confidence, v.coords, trigger, v.tag)
  }

  /** The candidates from token `i` for the keywords `kws`: one per keyword the
      token's text contains, all carrying the value found after the token. */
  function KeywordHitsAt(tokens: seq<Token>, fieldType: string, i: nat, kws: seq<string>): (r: seq<FormCandidate>)
    requires i < |tokens|
    ensures |r| <= |kws|
  {
    if kws == [] then []
    else
      var front := KeywordHitsAt(tokens, fieldType, i, kws[..|kws| - 1]);
      var kw := kws[|kws| - 1];
      var v := ValueFromContext(tokens, i, fieldType, false);
      if Contains(tokens[i].text, kw) && v.Some? then front + [Candidate(v.value, KeywordMatched(kw))] else front
  }

  /** The keyword loop over the first `m` tokens, as a specification. */
  function KeywordCandidates(tokens: seq<Token>, fieldType: string, kws: seq<string>, m: nat): seq<FormCandidate>
    requires m <= |tokens|
  {
    if m == 0 then [] else KeywordCandidates(tokens, fieldType, kws, m - 1) + KeywordHitsAt(tokens, fieldType, m - 1, kws)
  }

  /** `any(v["value"] == text for v in found_values)`. */
  predicate HasValue(found: seq<FormCandidate>, text: string) {
    exists k :: 0 <= k < |found| && found[k].value == text
  }

  /** The context-keyword step: append unless the value is already present. */
  function AddIfNew(found: seq<FormCandidate>, c: FormCandidate): seq<FormCandidate> {
    if HasValue(found, c.value) then found else found + [c]
  }

  /** The scan of the first `m` tokens for one context keyword, starting from `found`. */
  function ClueScan(found: seq<FormCandidate>, tokens: seq<Token>, fieldType: string, ck: string, m: nat): seq<FormCandidate>
    requires m <= |tokens|
  {
    if m == 0 then found
    else
      var prev := ClueScan(found, tokens, fieldType, ck, m - 1);
      var v := ValueFromContext(tokens, m - 1, fieldType, true);
      if Contains(tokens[m - 1].text, ck) && v.Some? then AddIfNew(prev, Candidate(v.value, ContextKeywordMatched(ck))) else prev
  }

  /** The context-keyword loop for the first `m` context keywords. */
  function ContextScan(found: seq<FormCandidate>, tokens: seq<Token>, fieldType: string, cks: seq<string>): seq<FormCandidate> {
    if cks == [] then found
    else ClueScan(ContextScan(found, tokens, fieldType, cks[..|cks| - 1]), tokens, fieldType, cks[|cks| - 1], |tokens|)
  }

  /** Every value collected for the field, in order. */
  function FoundValues(def: FieldDef, tokens: seq<Token>): seq<FormCandidate> {
    ContextScan(KeywordCandidates(tokens, def.fieldType, def.keywords, |tokens|), tokens, def.fieldType, def.contextKeywords)
  }

  function Conf(c: FormCandidate): real { c.confidence }

  /** The field's result as a specification. */
  function SingleField(def: FieldDef, tokens: seq<Token>): Option<FieldInfo> {
    var found := FoundValues(def, tokens);
    if found == [] then None
    else Some(FieldInfo(def.fieldType, |found|, found, found[FirstMax(found, Conf)]))
  }

  /** From position `p` on, every entry carries a value absent from all entries
      before it. */
  predicate NewFrom(r: seq<FormCandidate>, p: nat) {
    forall k :: p <= k < |r| ==> !HasValue(r[..k], r[k].value)
  }

  lemma AddIfNewExtends(found: seq<FormCandidate>, c: FormCandidate, p: nat)
    requires p <= |found| && NewFrom(found, p)
    ensures var r := AddIfNew(found, c); r[..|found|] == found && NewFrom(r, p)
  {
    var r := AddIfNew(found, c);
    if !HasValue(found, c.value) {
      forall k | p <= k < |r| ensures !HasValue(r[..k], r[k].value) {
        if k < |found| {
          assert r[..k] == found[..k];
          assert r[k] == found[k];
        } else {
          assert r[..k] == found;
        }
      }
    }
  }

  /** A context-keyword scan only appends, and only values not seen before. */
  lemma {:induction false} ClueScanExtends(found: seq<FormCandidate>, tokens: seq<Token>, fieldType: string, ck: string, m: nat, p: nat)
    requires m <= |tokens| && p <= |found| && NewFrom(found, p)
    ensures var r := ClueScan(found, tokens, fieldType, ck, m); |found| <= |r| && r[..|found|] == found && NewFrom(r, p)
  {
    if m > 0 {
      var prev := ClueScan(found, tokens, fieldType, ck, m - 1);
      ClueScanExtends(found, tokens, fieldType, ck, m - 1, p);
      var v := ValueFromContext(tokens, m - 1, fieldType, true);
      if Contains(tokens[m - 1].text, ck) && v.Some? {
        var c := Candidate(v.value, ContextKeywordMatched(ck));
        AddIfNewExtends(prev, c, p);
        var r := AddIfNew(prev, c);
        assert r[..|found|] == r[..|prev|][..|found|];
      }
    }
  }

  lemma {:induction false} ContextScanExtends(found: seq<FormCandidate>, tokens: seq<Token>, fieldType: string, cks: seq<string>)
    ensures var r := ContextScan(found, tokens, fieldType, cks); |found| <= |r| && r[..|found|] == found && NewFrom(r, |found|)
  {
    if cks != [] {
      var prev := ContextScan(found, tokens, fieldType, cks[..|cks| - 1]);
      ContextScanExtends(found, tokens, fieldType, cks[..|cks| - 1]);
      ClueScanExtends(prev, tokens, fieldType, cks[|cks| - 1], |tokens|, |found|);
      var r := ContextScan(found, tokens, fieldType, cks);
      assert r[..|found|] == r[..|prev|][..|found|];
    }
  }

  /** The keyword hits come first, undeduplicated; each context-keyword hit
      after them carries a value that no earlier entry has. */
  lemma FoundValuesShape(def: FieldDef, tokens: seq<Token>)
    ensures var kw := KeywordCandidates(tokens, def.fieldType, def.keywords, |tokens|);
            var found := FoundValues(def, tokens);
            |kw| <= |found| && found[..|kw|] == kw && NewFrom(found, |kw|)
  {
    ContextScanExtends(KeywordCandidates(tokens, def.fieldType, def.keywords, |tokens|), tokens, def.fieldType, def.contextKeywords);
  }

  /** The field's result: None exactly when nothing was collected; otherwise
      `found_count` counts every collected value and `best_match` is the first
      of maximal confidence. */
  lemma SingleFieldProperties(def: FieldDef, tokens: seq<Token>)
    ensures var found := FoundValues(def, tokens);
            match SingleField(def, tokens)
            case None => found == []
            case Some(info) =>
              && info.fieldType == def.fieldType
              && info.values == found && info.foundCount == |found|
              && (exists b :: 0 <= b < |found| && info.best == found[b]
                    && (forall k :: 0 <= k < |found| ==> found[k].confidence <= found[b].confidence)
                    && (forall k :: 0 <= k < b ==> found[k].confidence < found[b].confidence))
  {
    var found := FoundValues(def, tokens);
    if found != [] {
      var b := FirstMax(found, Conf);
      assert forall k :: 0 <= k < |found| ==> Conf(found[k]) <= Conf(found[b]);
      assert forall k :: 0 <= k < b ==> Conf(found[k]) < Conf(found[b]);
    }
  }

  /** The inner keyword loop for token `i`. */
  method KeywordHits(tokens: seq<Token>, fieldType: string, i: nat, kws: seq<string>) returns (hits: seq<FormCandidate>)
    requires i < |tokens|
    ensures hits == KeywordHitsAt(tokens, fieldType, i, kws)
  {
    hits := [];
    for ki := 0 to |kws|
      invariant hits == KeywordHitsAt(tokens, fieldType, i, kws[..ki])
    {
      assert kws[..ki + 1][..ki] == kws[..ki];
      if Contains(tokens[i].text, kws[ki]) {
        var fieldValue := ExtractFieldValueFromContext(tokens, i, fieldType, false);
        if fieldValue.Some? {
          hits := hits + [Candidate(fieldValue.value, KeywordMatched(kws[ki]))];
        }
      }
    }
    assert kws[..|kws|] == kws;
  }

  /** The inner context-keyword loop: every token is tried for one context keyword. */
  method ClueHits(found0: seq<FormCandidate>, tokens: seq<Token>, fieldType: string, ck: string) returns (found: seq<FormCandidate>)
    ensures found == ClueScan(found0, tokens, fieldType, ck, |tokens|)
  {
    found := found0;
    for i := 0 to |tokens|
      invariant found == ClueScan(found0, tokens, fieldType, ck, i)
    {
      if Contains(tokens[i].text, ck) {
        var fieldValue := ExtractFieldValueFromContext(tokens, i, fieldType, true);
        if fieldValue.Some? {
          var c := Candidate(fieldValue.value, ContextKeywordMatched(ck));
          if !HasValue(found, c.value) {
            found := found + [c];
          }
        }
      }
    }
  }

  /** `_extract_single_field`. */
  method ExtractSingleField(def: FieldDef, tokens: seq<Token>) returns (info: Option<FieldInfo>)
    ensures info == SingleField(def, tokens)
  {
    var found := [];
    for i := 0 to |tokens|
      invariant found == KeywordCandidates(tokens, def.fieldType, def.keywords, i)
    {
      var hits := KeywordHits(tokens, def.fieldType, i, def.keywords);
      found := found + hits;
    }
    ghost var keywordPart := found;
    var cks := def.contextKeywords;
    for ci := 0 to |cks|
      invariant found == ContextScan(keywordPart, tokens, def.fieldType, cks[..ci])
    {
      assert cks[..ci + 1][..ci] == cks[..ci];
      found := ClueHits(found, tokens, def.fieldType, cks[ci]);
    }
    assert cks[..|cks|] == cks;
    if found == [] {
      return None;
    }
    return Some(FieldInfo(def.fieldType, |found|, found, found[FirstMax(found, Conf)]));
  }

  // ---------------------------------------------------------------------------
  // All form fields (`_extract_structured_form_fields`)
  // ---------------------------------------------------------------------------

  function DefName(d: FieldDef): string { d.name }

  function FieldSearch(tokens: seq<Token>): FieldDef -> Option<FieldInfo> {
    d => SingleField(d, tokens)
  }

  /** `structured_fields`: the form fields that found something, in definition
      order (see `Dicts`). */
  function StructuredFields(defs: seq<FieldDef>, tokens: seq<Token>): seq<(string, FieldInfo)> {
    Collect(defs, DefName, FieldSearch(tokens))
  }

  method ExtractStructuredFormFields(defs: seq<FieldDef>, tokens: seq<Token>) returns (result: seq<(string, FieldInfo)>)
    ensures result == StructuredFields(defs, tokens)
  {
    result := [];
    for i := 0 to |defs|
      invariant result == StructuredFields(defs[..i], tokens)
    {
      var fieldInfo := ExtractSingleField(defs[i], tokens);
      assert defs[..i + 1][..i] == defs[..i];
      if fieldInfo.Some? {
        result := result + [(defs[i].name, fieldInfo.value)];
      }
    }
    assert defs[..|defs|] == defs;
  }

  // ---------------------------------------------------------------------------
  // Region bucketing (`_extract_coordinate_based_fields`)
  // ---------------------------------------------------------------------------

  /** A token belongs to an area when it has coordinates and its centre lies in
      the closed rectangle. */
  predicate InArea(a: Area, t: Token) {
    t.coords.Some? && a.xMin <= t.coords.value.centerX <= a.xMax && a.yMin <= t.coords.value.centerY <= a.yMax
  }

  /** An area's entry: its `tokens`, their `combined_text` and the `area_definition`. */
  datatype AreaResult = AreaResult(tokens: seq<Token>, combinedText: string, area: Area)

  /** The area's tokens, in token order. */
  function AreaTokens(a: Area, tokens: seq<Token>): seq<Token> {
    Filter(tokens, t => InArea(a, t))
  }

  /** `"".join(t["text"] for t in ts)`. */
  function CombinedText(ts: seq<Token>): (r: string)
    ensures |r| == Sum(seq(|ts|, k requires 0 <= k < |ts| => |ts[k].text|))
  {
    if ts == [] then ""
    else
      var n := |ts| - 1;
      var lens := seq(|ts|, k requires 0 <= k < |ts| => |ts[k].text|);
      assert lens[..n] == seq(n, k requires 0 <= k < n => |ts[..n][k].text|);
      SumAppend(lens[..n], lens[n]);
      assert lens == lens[..n] + [lens[n]];
      CombinedText(ts[..n]) + ts[n].text
  }

  function AreaSearch(tokens: seq<Token>): ((string, Area)) -> Option<AreaResult> {
    (p: (string, Area)) => var ts := AreaTokens(p.1, tokens); if ts == [] then None else Some(AreaResult(ts, CombinedText(ts), p.1))
  }

  function AreaName(p: (string, Area)): string { p.0 }

  /** The area map as a specification: areas with no tokens are absent. */
  function CoordinateFields(areas: seq<(string, Area)>, tokens: seq<Token>): seq<(string, AreaResult)> {
    Collect(areas, AreaName, AreaSearch(tokens))
  }

  /** An area's entry holds exactly the tokens whose centre lies in it, and is
      present exactly when there is one. */
  lemma AreaResultSpec(area: (string, Area), tokens: seq<Token>)
    ensures var r := AreaSearch(tokens)(area);
            && (r.None? <==> forall j :: 0 <= j < |tokens| ==> !InArea(area.1, tokens[j]))
            && (r.Some? ==> r.value.area == area.1 && r.value.combinedText == CombinedText(r.value.tokens)
                            && forall t :: t in r.value.tokens <==> t in tokens && InArea(area.1, t))
  {
    var ts := AreaTokens(area.1, tokens);
    FilterMembers(tokens, t => InArea(area.1, t));
    if ts == [] {
      forall j | 0 <= j < |tokens| ensures !InArea(area.1, tokens[j]) {
        assert tokens[j] in tokens;
      }
    } else {
      assert ts[0] in ts;
    }
  }

  /** The inner loop: the tokens of one area. */
  method TokensInArea(a: Area, tokens: seq<Token>) returns (fieldTokens: seq<Token>)
    ensures fieldTokens == AreaTokens(a, tokens)
  {
    fieldTokens := [];
    for i := 0 to |tokens|
      invariant fieldTokens == AreaTokens(a, tokens[..i])
    {
      assert tokens[..i + 1][..i] == tokens[..i];
      var coords := tokens[i].coords;
      if coords.None? {
        continue;
      }
      if a.xMin <= coords.value.centerX <= a.xMax && a.yMin <= coords.value.centerY <= a.yMax {
        fieldTokens := fieldTokens + [tokens[i]];
      }
    }
    assert tokens[..|tokens|] == tokens;
  }

  method ExtractCoordinateBasedFields(areas: seq<(string, Area)>, tokens: seq<Token>) returns (result: seq<(string, AreaResult)>)
    ensures result == CoordinateFields(areas, tokens)
  {
    result := [];
    for i := 0 to |areas|
      invariant result == CoordinateFields(areas[..i], tokens)
    {
      var (fieldName, area) := areas[i];
      var fieldTokens := TokensInArea(area, tokens);
      assert areas[..i + 1][..i] == areas[..i];
      if fieldTokens != [] {
        result := result + [(fieldName, AreaResult(fieldTokens, CombinedText(fieldTokens), area))];
      }
    }
    assert areas[..|areas|] == areas;
  }

  // ---------------------------------------------------------------------------
  // Per-token pattern hits (`_extract_pattern_based_fields`)
  // ---------------------------------------------------------------------------

  const DatePatterns: seq<string> := [@"令和\s*\d+\s*年\s*\d+\s*月\s*\d+\s*日", @"\d{4}\s*年\s*\d{1,2}\s*月\s*\d{1,2}\s*日"]
  const PhonePatterns: seq<string> := [@"\d{2,5}[-\s]?\d{2,4}[-\s]?\d{2,4}", @"\d{2,5}"]
  const NumberPatterns: seq<string> := [@"\d+\s*本", @"\d+\s*枚", @"\d+\.?\d*"]

  /** An entry of the `dates`, `phone_numbers` or `numbers` list. */
  datatype PatternItem =
    | DateItem(text: string, coords: Option<Box>, confidence: real, pattern: string)
    | PhoneItem(text: string, matched: string, coords: Option<Box>, confidence: real)
    | NumberItem(text: string, matched: string, coords: Option<Box>, confidence: real, patternType: string)

  datatype PatternFields = PatternFields(dates: seq<PatternItem>, numbers: seq<PatternItem>, phoneNumbers: seq<PatternItem>)

  /** `match.group()`. */
  function Group(text: string, m: Span): string {
    Slice(text, m.start, m.end)
  }

  /** The date entries for one token: one per date pattern found in its text. */
  function DateHits(t: Token, pats: seq<string>, search: Search): (r: seq<PatternItem>)
    ensures |r| <= |pats|
    ensures forall k :: 0 <= k < |r| ==> r[k].DateItem? && r[k].text == t.text && r[k].pattern in pats
                                         && search(r[k].pattern, t.text).Some?
  {
    if pats == [] then []
    else
      var front := DateHits(t, pats[..|pats| - 1], search);
      var p := pats[|pats| - 1];
      if search(p, t.text).Some? then front + [DateItem(t.text, t.coords, t.confidence, p)] else front
  }

  /** `matched` is `match.group()` of one of `pats` searched in `text`. */
  predicate MatchOfSome(matched: string, text: string, pats: seq<string>, search: Search) {
    exists p :: p in pats && search(p, text).Some? && matched == Group(text, search(p, text).value)
  }

  /** The phone entries for one token: one per phone pattern whose match has at
      least four characters. */
  function PhoneHits(t: Token, pats: seq<string>, search: Search): (r: seq<PatternItem>)
    ensures |r| <= |pats|
    ensures forall k :: 0 <= k < |r| ==> r[k].PhoneItem? && r[k].text == t.text && |r[k].matched| >= 4
                                         && MatchOfSome(r[k].matched, t.text, pats, search)
  {
    if pats == [] then []
    else
      var front := PhoneHits(t, pats[..|pats| - 1], search);
      var p := pats[|pats| - 1];
      var m := search(p, t.text);
      assert forall k :: 0 <= k < |front| ==> MatchOfSome(front[k].matched, t.text, pats, search) by {
        forall k | 0 <= k < |front| ensures MatchOfSome(front[k].matched, t.text, pats, search) {
          var q :| q in pats[..|pats| - 1] && search(q, t.text).Some? && front[k].matched == Group(t.text, search(q, t.text).value);
          assert q in pats;
        }
      }
      if m.Some? && |Group(t.text, m.value)| >= 4 then
        assert MatchOfSome(Group(t.text, m.value), t.text, pats, search) by { assert p in pats; }
        front + [PhoneItem(t.text, Group(t.text, m.value), t.coords, t.confidence)]
      else front
  }

  /** The number entries for one token: one per number pattern found in its text. */
  function NumberHits(t: Token, pats: seq<string>, search: Search): (r: seq<PatternItem>)
    ensures |r| <= |pats|
    ensures forall k :: 0 <= k < |r| ==> r[k].NumberItem? && r[k].text == t.text && r[k].patternType in pats
                                         && search(r[k].patternType, t.text).Some?
                                         && r[k].matched == Group(t.text, search(r[k].patternType, t.text).value)
  {
    if pats == [] then []
    else
      var front := NumberHits(t, pats[..|pats| - 1], search);
      var p := pats[|pats| - 1];
      var m := search(p, t.text);
      if m.Some? then front + [NumberItem(t.text, Group(t.text, m.value), t.coords, t.confidence, p)] else front
  }

  /** The three lists over all tokens, as a specification. */
  function PatternHits(tokens: seq<Token>, search: Search): (r: PatternFields)
    ensures |r.dates| <= 2 * |tokens| && |r.phoneNumbers| <= 2 * |tokens| && |r.numbers| <= 3 * |tokens|
  {
    if tokens == [] then PatternFields([], [], [])
    else
      var prev := PatternHits(tokens[..|tokens| - 1], search);
      var t := tokens[|tokens| - 1];
      PatternFields(prev.dates + DateHits(t, DatePatterns, search),
                    prev.numbers + NumberHits(t, NumberPatterns, search),
                    prev.phoneNumbers + PhoneHits(t, PhonePatterns, search))
  }

  /** A date entry names a date pattern found in its text. */
  predicate DateEntry(d: PatternItem, search: Search) {
    d.DateItem? && d.pattern in DatePatterns && search(d.pattern, d.text).Some?
  }

  /** A phone entry holds the match, of at least four characters, of a phone
      pattern on its text. */
  predicate PhoneEntry(d: PatternItem, search: Search) {
    d.PhoneItem? && |d.matched| >= 4 && MatchOfSome(d.matched, d.text, PhonePatterns, search)
  }

  /** A number entry holds the match of the number pattern it names. */
  predicate NumberEntry(d: PatternItem, search: Search) {
    && d.NumberItem? && d.patternType in NumberPatterns
    && search(d.patternType, d.text).Some?
    && d.matched == Group(d.text, search(d.patternType, d.text).value)
  }

  /** Every entry of the three lists is of its list's kind and was produced by
      a pattern of that kind. */
  predicate SoundHits(r: PatternFields, search: Search) {
    && (forall k :: 0 <= k < |r.dates| ==> DateEntry(r.dates[k], search))
    && (forall k :: 0 <= k < |r.phoneNumbers| ==> PhoneEntry(r.phoneNumbers[k], search))
    && (forall k :: 0 <= k < |r.numbers| ==> NumberEntry(r.numbers[k], search))
  }

  lemma {:induction false} PatternHitsSound(tokens: seq<Token>, search: Search)
    ensures SoundHits(PatternHits(tokens, search), search)
  {
    if tokens != [] {
      var prev := PatternHits(tokens[..|tokens| - 1], search);
      PatternHitsSound(tokens[..|tokens| - 1], search);
      var t := tokens[|tokens| - 1];
      var r := PatternHits(tokens, search);
      var ds, ns, ps := DateHits(t, DatePatterns, search), NumberHits(t, NumberPatterns, search), PhoneHits(t, PhonePatterns, search);
      assert r.dates == prev.dates + ds && r.numbers == prev.numbers + ns && r.phoneNumbers == prev.phoneNumbers + ps;
      forall k | 0 <= k < |r.dates| ensures DateEntry(r.dates[k], search) {
        if k >= |prev.dates| {
          assert r.dates[k] == ds[k - |prev.dates|];
        } else {
          assert r.dates[k] == prev.dates[k] && DateEntry(prev.dates[k], search);
        }
      }
      forall k | 0 <= k < |r.numbers| ensures NumberEntry(r.numbers[k], search) {
        if k >= |prev.numbers| {
          assert r.numbers[k] == ns[k - |prev.numbers|];
        } else {
          assert r.numbers[k] == prev.numbers[k] && NumberEntry(prev.numbers[k], search);
        }
      }
      forall k | 0 <= k < |r.phoneNumbers| ensures PhoneEntry(r.phoneNumbers[k], search) {
        if k >= |prev.phoneNumbers| {
          assert r.phoneNumbers[k] == ps[k - |prev.phoneNumbers|];
        } else {
          assert r.phoneNumbers[k] == prev.phoneNumbers[k] && PhoneEntry(prev.phoneNumbers[k], search);
        }
      }
    } else {
      assert PatternHits(tokens, search) == PatternFields([], [], []);
    }
  }

  /** The pattern loops for one token. */
  method TokenPatternHits(t: Token, search: Search) returns (dates: seq<PatternItem>, numbers: seq<PatternItem>, phones: seq<PatternItem>)
    ensures dates == DateHits(t, DatePatterns, search)
    ensures numbers == NumberHits(t, NumberPatterns, search)
    ensures phones == PhoneHits(t, PhonePatterns, search)
  {
    var text := t.text;
    dates := [];
    for pi := 0 to |DatePatterns|
      invariant dates == DateHits(t, DatePatterns[..pi], search)
    {
      assert DatePatterns[..pi + 1][..pi] == DatePatterns[..pi];
      if search(DatePatterns[pi], text).Some? {
        dates := dates + [DateItem(text, t.coords, t.confidence, DatePatterns[pi])];
      }
    }
    assert DatePatterns[..|DatePatterns|] == DatePatterns;
    phones := [];
    for pi := 0 to |PhonePatterns|
      invariant phones == PhoneHits(t, PhonePatterns[..pi], search)
    {
      assert PhonePatterns[..pi + 1][..pi] == PhonePatterns[..pi];
      var m := search(PhonePatterns[pi], text);
      if m.Some? && |Group(text, m.value)| >= 4 {
        phones := phones + [PhoneItem(text, Group(text, m.value), t.coords, t.confidence)];
      }
    }
    assert PhonePatterns[..|PhonePatterns|] == PhonePatterns;
    numbers := [];
    for pi := 0 to |NumberPatterns|
      invariant numbers == NumberHits(t, NumberPatterns[..pi], search)
    {
      assert NumberPatterns[..pi + 1][..pi] == NumberPatterns[..pi];
      var m := search(NumberPatterns[pi], text);
      if m.Some? {
        numbers := numbers + [NumberItem(text, Group(text, m.value), t.coords, t.confidence, NumberPatterns[pi])];
      }
    }
    assert NumberPatterns[..|NumberPatterns|] == NumberPatterns;
  }

  method ExtractPatternBasedFields(tokens: seq<Token>, search: Search) returns (result: PatternFields)
    ensures result == PatternHits(tokens, search)
  {
    result := PatternFields([], [], []);
    for i := 0 to |tokens|
      invariant result == PatternHits(tokens[..i], search)
    {
      assert tokens[..i + 1][..i] == tokens[..i];
      var dates, numbers, phones := TokenPatternHits(tokens[i], search);
      result := PatternFields(result.dates + dates, result.numbers + numbers, result.phoneNumbers + phones);
    }
    assert tokens[..|tokens|] == tokens;
  }

  // ---------------------------------------------------------------------------
  // Every collected value passes the validator
  // ---------------------------------------------------------------------------

  /** Every candidate is non-blank, stripped and valid for the field type. */
  /** A non-blank, already stripped text that is valid for the field type. */
  predicate ValidValue(text: string, fieldType: string) {
    text != [] && Strip(text) == text && FormValid(text, fieldType)
  }

  predicate AllValid(found: seq<FormCandidate>, fieldType: string) {
    forall k :: 0 <= k < |found| ==> ValidValue(found[k].value, fieldType)
  }

  lemma AllValidAppend(a: seq<FormCandidate>, b: seq<FormCandidate>, fieldType: string)
    requires AllValid(a, fieldType) && AllValid(b, fieldType)
    ensures AllValid(a + b, fieldType)
  {
    forall k | 0 <= k < |a + b|
      ensures ValidValue((a + b)[k].value, fieldType)
    {
      if k < |a| {
        assert (a + b)[k] == a[k];
      } else {
        assert (a + b)[k] == b[k - |a|];
      }
    }
  }

  lemma {:induction false} KeywordHitsValid(tokens: seq<Token>, fieldType: string, i: nat, kws: seq<string>)
    requires i < |tokens|
    ensures AllValid(KeywordHitsAt(tokens, fieldType, i, kws), fieldType)
  {
    if kws != [] {
      KeywordHitsValid(tokens, fieldType, i, kws[..|kws| - 1]);
      var v := ValueFromContext(tokens, i, fieldType, false);
      if v.Some? {
        FoundValueValid(tokens, i, fieldType, false);
        AllValidAppend(KeywordHitsAt(tokens, fieldType, i, kws[..|kws| - 1]), [Candidate(v.value, KeywordMatched(kws[|kws| - 1]))], fieldType);
      }
    }
  }

  lemma {:induction false} KeywordCandidatesValid(tokens: seq<Token>, fieldType: string, kws: seq<string>, m: nat)
    requires m <= |tokens|
    ensures AllValid(KeywordCandidates(tokens, fieldType, kws, m), fieldType)
  {
    if m > 0 {
      KeywordCandidatesValid(tokens, fieldType, kws, m - 1);
      KeywordHitsValid(tokens, fieldType, m - 1, kws);
      AllValidAppend(KeywordCandidates(tokens, fieldType, kws, m - 1), KeywordHitsAt(tokens, fieldType, m - 1, kws), fieldType);
    }
  }

  lemma {:induction false} ClueScanValid(found: seq<FormCandidate>, tokens: seq<Token>, fieldType: string, ck: string, m: nat)
    requires m <= |tokens| && AllValid(found, fieldType)
    ensures AllValid(ClueScan(found, tokens, fieldType, ck, m), fieldType)
  {
    if m > 0 {
      ClueScanValid(found, tokens, fieldType, ck, m - 1);
      var prev := ClueScan(found, tokens, fieldType, ck, m - 1);
      var v := ValueFromContext(tokens, m - 1, fieldType, true);
      var r := ClueScan(found, tokens, fieldType, ck, m);
      if Contains(tokens[m - 1].text, ck) && v.Some? {
        var c := Candidate(v.value, ContextKeywordMatched(ck));
        assert r == AddIfNew(prev, c);
        if !HasValue(prev, c.value) {
          FoundValueValid(tokens, m - 1, fieldType, true);
          assert ValidValue(c.value, fieldType);
          AllValidAppend(prev, [c], fieldType);
        }
      } else {
        assert r == prev;
      }
    }
  }

  lemma {:induction false} ContextScanValid(found: seq<FormCandidate>, tokens: seq<Token>, fieldType: string, cks: seq<string>)
    requires AllValid(found, fieldType)
    ensures AllValid(ContextScan(found, tokens, fieldType, cks), fieldType)
  {
    if cks != [] {
      ContextScanValid(found, tokens, fieldType, cks[..|cks| - 1]);
      ClueScanValid(ContextScan(found, tokens, fieldType, cks[..|cks| - 1]), tokens, fieldType, cks[|cks| - 1], |tokens|);
    }
  }

  /** Every value a form field reports, the best one included, is a stripped,
      non-blank token text that passes `_is_valid_field_value` for the field type. */
  lemma FoundValuesValid(def: FieldDef, tokens: seq<Token>)
    ensures AllValid(FoundValues(def, tokens), def.fieldType)
  {
    KeywordCandidatesValid(tokens, def.fieldType, def.keywords, |tokens|);
    ContextScanValid(KeywordCandidates(tokens, def.fieldType, def.keywords, |tokens|), tokens, def.fieldType, def.contextKeywords);
  }

  // ---------------------------------------------------------------------------
  // All fields of a page (`_extract_fields`)
  // ---------------------------------------------------------------------------

  /** The keys `_extract_fields` writes after the area map. */
  const ReservedKeys: set<string> := {"structured_fields", "dates", "numbers", "phone_numbers"}

  /** The extracted-field map: the area entries (an area named like a later key
      is overwritten by `fields.update` and so disappears), `structured_fields`,
      and the three pattern lists. */
  datatype ExtractedFields = ExtractedFields(areas: seq<(string, AreaResult)>, structured: seq<(string, FieldInfo)>, patterns: PatternFields)

  function Unshadowed(p: (string, AreaResult)): bool { p.0 !in ReservedKeys }

  function FieldsOf(defs: Definitions, tokens: seq<Token>, search: Search): ExtractedFields {
    ExtractedFields(Filter(CoordinateFields(defs.areas, tokens), Unshadowed), StructuredFields(defs.formFields, tokens), PatternHits(tokens, search))
  }

  method ExtractFields(defs: Definitions, tokens: seq<Token>, search: Search) returns (fields: ExtractedFields)
    ensures fields == FieldsOf(defs, tokens, search)
  {
    var coordinateFields := ExtractCoordinateBasedFields(defs.areas, tokens);
    var formFields := ExtractStructuredFormFields(defs.formFields, tokens);
    var patternFields := ExtractPatternBasedFields(tokens, search);
    fields := ExtractedFields(Filter(coordinateFields, Unshadowed), formFields, patternFields);
  }

  // ---------------------------------------------------------------------------
  // `_get_context_tokens`
  // ---------------------------------------------------------------------------

  function ContextTokens(tokens: seq<Token>, center: int, radius: int): seq<Token> {
    var lo := if center - radius > 0 then center - radius else 0;
    var hi := if |tokens| < center + radius + 1 then |tokens| else center + radius + 1;
    Slice(tokens, lo, hi)
  }

  /** Around a token of the list, the context is the contiguous run of at most
      `2 * radius + 1` tokens centred on it, cut at both ends of the list. */
  lemma ContextTokensWindow(tokens: seq<Token>, center: int, radius: int)
    requires 0 <= center < |tokens| && radius >= 0
    ensures var r := ContextTokens(tokens, center, radius);
            var lo := if center - radius > 0 then center - radius else 0;
            && |r| <= 2 * radius + 1
            && r == tokens[lo..if |tokens| < center + radius + 1 then |tokens| else center + radius + 1]
            && r[center - lo] == tokens[center]
  {
  }

  // ---------------------------------------------------------------------------
  // The summary (`generate_final_structured_json`)
  // ---------------------------------------------------------------------------

  /** `page_dimensions`. */
  datatype PageDimensions = PageDimensions(width: real, height: real, unit: string)

  /** `document_info`; the processing time is supplied by the caller. */
  datatype FormDocInfo = FormDocInfo(pageCount: nat, dims: PageDimensions, languages: seq<string>, processedAt: string)

  /** What `process_document_json` returns: the error map, or the document
      information, the extracted fields and the tokens. */
  datatype FormOutput =
    | FormError(message: string)
    | FormResult(info: FormDocInfo, fields: ExtractedFields, tokens: seq<Token>)

  /** An entry of `その他の候補`. */
  datatype OtherCandidate = OtherCandidate(value: string, confidence: real)

  /** A summarised field: `値`, `信頼度`, `フィールドタイプ`, `検出方法`, `座標`,
      `候補数` and, with more than one candidate, `その他の候補`. */
  datatype FinalField = FinalField(value: string, confidence: real, fieldType: string, tag: string, coords: Option<Box>,
                                   count: nat, others: Option<seq<OtherCandidate>>)

  /** An entry of a `パターン抽出結果` list. */
  datatype BucketEntry = BucketEntry(value: string, confidence: real, coords: Option<Box>)

  /** `抽出統計`. */
  datatype FinalStats = FinalStats(fieldCount: nat, dateCount: nat, numberCount: nat, phoneCount: nat)

  /** `文書情報`: `処理日時`, `ページ数` and `ページサイズ` (None for `{}`). */
  datatype FinalInfo = FinalInfo(processedAt: string, pageCount: nat, pageSize: Option<PageDimensions>)

  datatype FinalJson = FinalJson(info: FinalInfo, fields: seq<(string, FinalField)>, buckets: seq<(string, seq<BucketEntry>)>, stats: FinalStats)

  function NotBest(best: FormCandidate): FormCandidate -> bool { v => v != best }

  function Other(v: FormCandidate): OtherCandidate { OtherCandidate(v.value, v.confidence) }

  /** `[{...} for v in values if v != best_match]`. */
  function Others(values: seq<FormCandidate>, best: FormCandidate): (r: seq<OtherCandidate>) {
    var kept := Filter(values, NotBest(best));
    seq(|kept|, k requires 0 <= k < |kept| => Other(kept[k]))
  }

  function Summarized(info: FieldInfo): FinalField {
    FinalField(info.best.value, info.best.confidence, info.fieldType, info.best.tag, info.best.coords, info.foundCount,
               if info.foundCount > 1 then Some(Others(info.values, info.best)) else None)
  }

  function SummarizedFields(structured: seq<(string, FieldInfo)>): (r: seq<(string, FinalField)>) {
    seq(|structured|, k requires 0 <= k < |structured| => (structured[k].0, Summarized(structured[k].1)))
  }

  /** `item.get("matched_value", item.get("text", ""))`. */
  function EntryOf(item: PatternItem): BucketEntry {
    BucketEntry(if item.DateItem? then item.text else item.matched, item.confidence, item.coords)
  }

  /** One `パターン抽出結果` list: absent when there are no items, else the first five. */
  function Bucket(key: string, items: seq<PatternItem>): seq<(string, seq<BucketEntry>)> {
    if items == [] then []
    else
      var head := Slice(items, 0, 5);
      [(key, seq(|head|, k requires 0 <= k < |head| => EntryOf(head[k])))]
  }

  function Min5(n: nat): nat { if n < 5 then n else 5 }

  /** The summary as a specification. */
  function FinalStructuredJson(result: FormOutput): FinalJson {
    match result
    case FormError(_) => FinalJson(FinalInfo("", 0, None), [], [], FinalStats(0, 0, 0, 0))
    case FormResult(info, fields, _) =>
      var finals := SummarizedFields(fields.structured);
      var p := fields.patterns;
      FinalJson(FinalInfo(info.processedAt, info.pageCount, Some(info.dims)), finals,
                Bucket("dates", p.dates) + Bucket("numbers", p.numbers) + Bucket("phone_numbers", p.phoneNumbers),
                FinalStats(|finals|, Min5(|p.dates|), Min5(|p.numbers|), Min5(|p.phoneNumbers|)))
  }

  /** `その他の候補` lists exactly the candidates that differ from the best one, in order. */
  lemma OthersSpec(values: seq<FormCandidate>, best: FormCandidate)
    ensures forall o :: o in Others(values, best) <==> exists v :: v in values && v != best && o == Other(v)
  {
    var kept := Filter(values, NotBest(best));
    FilterMembers(values, NotBest(best));
    var r := Others(values, best);
    forall o ensures o in r <==> exists v :: v in values && v != best && o == Other(v) {
      if o in r {
        var k :| 0 <= k < |r| && r[k] == o;
        assert kept[k] in kept;
      }
      if exists v :: v in values && v != best && o == Other(v) {
        var v :| v in values && v != best && o == Other(v);
        assert v in kept;
        var k :| 0 <= k < |kept| && kept[k] == v;
        assert r[k] == o;
      }
    }
  }

  /** A pattern list appears exactly when non-empty, with its first five items. */
  lemma BucketSpec(key: string, items: seq<PatternItem>)
    ensures var b := Bucket(key, items);
            && (b == [] <==> items == [])
            && (b != [] ==> |b| == 1 && b[0].0 == key && |b[0].1| == Min5(|items|)
                            && forall k :: 0 <= k < |b[0].1| ==> b[0].1[k] == EntryOf(items[k]))
  {
  }

  /** Every structured field is summarised, in order, from its best match (its
      value, confidence, detection tag and coordinates) and its type; the
      other candidates are listed exactly when there is more than one; and the
      statistics count the emitted fields and list entries. */
  lemma FinalStructuredJsonProperties(result: FormOutput)
    requires result.FormResult?
    ensures var out := FinalStructuredJson(result);
            var structured := result.fields.structured;
            var p := result.fields.patterns;
            && |out.fields| == |structured|
            && (forall k :: 0 <= k < |structured| ==>
                  && out.fields[k].0 == structured[k].0
                  && out.fields[k].1.value == structured[k].1.best.value
                  && out.fields[k].1.confidence == structured[k].1.best.confidence
                  && out.fields[k].1.tag == structured[k].1.best.tag
                  && out.fields[k].1.coords == structured[k].1.best.coords
                  && out.fields[k].1.fieldType == structured[k].1.fieldType
                  && out.fields[k].1.count == structured[k].1.foundCount
                  && (out.fields[k].1.others.Some? <==> structured[k].1.foundCount > 1)
                  && (out.fields[k].1.others.Some? ==>
                        out.fields[k].1.others.value == Others(structured[k].1.values, structured[k].1.best)))
            && out.stats.fieldCount == |out.fields|
            && out.stats.dateCount == Min5(|p.dates|) && out.stats.numberCount == Min5(|p.numbers|)
            && out.stats.phoneCount == Min5(|p.phoneNumbers|)
            && |out.buckets| == (if p.dates == [] then 0 else 1) + (if p.numbers == [] then 0 else 1) + (if p.phoneNumbers == [] then 0 else 1)
  {
    var p := result.fields.patterns;
    BucketSpec("dates", p.dates);
    BucketSpec("numbers", p.numbers);
    BucketSpec("phone_numbers", p.phoneNumbers);
  }

  // ---------------------------------------------------------------------------
  // The extractor object
  // ---------------------------------------------------------------------------

  function OrElse<T>(o: Option<T>, d: T): T {
    match o case Some(v) => v case None => d
  }

  /** The extractor: its definitions and the page size recorded by the last
      processed document. */
  class FormFieldExtractor {
    var definitions: Definitions
    var pageWidth: Option<real>
    var pageHeight: Option<real>

    /** `field_definitions or self._get_default_field_definitions()`; None stands
        for both a missing and an empty dictionary. */
    constructor (fieldDefinitions: Option<Definitions>)
      ensures definitions == OrElse(fieldDefinitions, DefaultDefinitions)
      ensures pageWidth == None && pageHeight == None
    {
      definitions := OrElse(fieldDefinitions, DefaultDefinitions);
      pageWidth := None;
      pageHeight := None;
    }

    /** `process_document_json`: the error map when there are no pages (and the
        page size is left alone); otherwise the first page's size is recorded
        (1.0 when absent) and its tokens are extracted and searched. */
    method ProcessDocumentJson(doc: RawDocument, processedAt: string, search: Search) returns (out: FormOutput)
      modifies this
      ensures definitions == old(definitions)
      ensures doc.pages == [] ==> out == FormError("No pages found in document")
                                  && pageWidth == old(pageWidth) && pageHeight == old(pageHeight)
      ensures doc.pages != [] ==>
                var page := doc.pages[0];
                var tokens := Tokens(page.tokens, DocText(doc));
                && pageWidth == Some(OrElse(page.dimension.width, 1.0))
                && pageHeight == Some(OrElse(page.dimension.height, 1.0))
                && out == FormResult(FormDocInfo(|doc.pages|,
                                                 PageDimensions(OrElse(page.dimension.width, 1.0), OrElse(page.dimension.height, 1.0),
                                                                OrElse(page.dimension.unit, "pixels")),
                                                 page.detectedLanguages, processedAt),
                                     FieldsOf(definitions, tokens, search), tokens)
    {
      if doc.pages == [] {
        return FormError("No pages found in document");
      }
      var page := doc.pages[0];
      pageWidth := Some(OrElse(page.dimension.width, 1.0));
      pageHeight := Some(OrElse(page.dimension.height, 1.0));
      var info := FormDocInfo(|doc.pages|, PageDimensions(pageWidth.value, pageHeight.value, OrElse(page.dimension.unit, "pixels")),
                              page.detectedLanguages, processedAt);
      var fullText := DocText(doc);
      var tokens := ExtractTokens(page.tokens, fullText);
      var fields := ExtractFields(definitions, tokens, search);
      out := FormResult(info, fields, tokens);
    }
  }
}
