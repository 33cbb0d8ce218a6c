/** `SmartFieldExtractor` (test_document_ai/lib/smart_field_extractor.py): pattern
    matching over the whole text plus context clues around tokens, then
    de-duplication, ranking by confidence and truncation to five candidates.
    The regular-expression engine is an oracle: `FindIter` stands for
    `re.finditer(pattern, text, re.IGNORECASE)` and returns the match spans. */
module SmartExtractor {
  import opened Common
  import opened Geometry
  import opened Layout
  import opened Validators
  import opened Ranking
  import opened Dicts

  type FindIter = (string, string) -> seq<Span>

  /** How a candidate was found: `抽出方法` "パターンマッチング" with its `パターン`, or
      "コンテキスト(clue)" with its `コンテキストクルー`. */
  datatype Origin = PatternMatch(pattern: string) | ContextClue(clue: string)

  /** A candidate value: `値`, `信頼度`, its origin and `座標` (None for `{}`). */
  datatype Candidate = Candidate(value: string, confidence: real, origin: Origin, coords: Option<Box>)

  /** One entry of the pattern registry. */
  datatype FieldConfig = FieldConfig(name: string, patterns: seq<string>, clues: seq<string>)

  /** The per-field result: `検出数`, `最高信頼度`, `全候補`, `フィールドタイプ`. */
  datatype FieldResult = FieldResult(count: nat, best: Candidate, top: seq<Candidate>, fieldType: string)

  /** `文書情報`; the processing time is supplied by the caller. */
  datatype DocSummary = DocSummary(processedAt: string, pageCount: nat, charCount: nat, tokenCount: nat)

  /** The whole result: the error map, or the fields found in registry order
      with the `統計情報` counts. */
  datatype SmartOutput =
    | SmartError(message: string)
    | SmartResult(info: DocSummary, fields: seq<(string, FieldResult)>, fieldCount: nat, fieldTypes: seq<string>)

  // ---------------------------------------------------------------------------
  // The registry (`_initialize_patterns`)
  // ---------------------------------------------------------------------------

  const Registry: seq<FieldConfig> := [
    FieldConfig("日付",
      [@"令和\s*\d+\s*年\s*\d+\s*月\s*\d+\s*日",
       @"平成\s*\d+\s*年\s*\d+\s*月\s*\d+\s*日",
       @"\d{4}\s*年\s*\d{1,2}\s*月\s*\d{1,2}\s*日",
       @"\d{4}[-/]\d{1,2}[-/]\d{1,2}",
       @"\d{1,2}[-/]\d{1,2}[-/]\d{4}"],
      ["日付", "年月日", "作成日", "提出日", "申請日"]),
    FieldConfig("金額",
      [@"[￥¥]\s*[\d,，]+",
       @"[\d,，]+\s*円",
       @"[\d,，]+\s*万円",
       @"金額\s*[:：]\s*[\d,，]+",
       @"合計\s*[:：]\s*[\d,，]+"],
      ["金額", "料金", "価格", "合計", "小計", "税込", "税抜", "￥", "¥", "円"]),
    FieldConfig("氏名",
      [@"[一-龯]{2,4}\s+[一-龯]{1,3}",
       @"[ァ-ヾ]{2,8}",
       @"[あ-ん]{2,8}",
       @"[A-Za-z]+\s+[A-Za-z]+"],
      ["氏名", "名前", "姓名", "申請者", "担当者", "様", "殿", "氏"]),
    FieldConfig("住所",
      [@"[都道府県]{1}[^都道府県]*[市区町村]{1}",
       @"〒\d{3}-\d{4}",
       @"\d{3}-\d{4}.*[都道府県市区町村]",
       @"[一-龯]{2,}[都道府県市区町村丁目番地号]+[\d一-龯]*"],
      ["住所", "所在地", "郵便番号", "〒", "都", "道", "府", "県", "市", "区", "町", "村"]),
    FieldConfig("電話番号",
      [@"\d{2,5}[-−]\d{2,4}[-−]\d{2,4}",
       @"\(\d{2,5}\)\s*\d{2,4}[-−]\d{2,4}",
       @"\d{10,11}",
       @"TEL\s*[:：]\s*[\d\-−\(\)]+",
       @"電話\s*[:：]\s*[\d\-−\(\)]+"],
      ["電話", "TEL", "Tel", "携帯", "連絡先", "番号"]),
    FieldConfig("メールアドレス",
      [@"[a-zA-Z0-9._%+-]+@[a-zA-Z0-9.-]+\.[a-zA-Z]{2,}",
       @"[a-zA-Z0-9._%+-]+＠[a-zA-Z0-9.-]+\.[a-zA-Z]{2,}"],
      ["メール", "email", "E-mail", "@", "＠"]),
    FieldConfig("会社名",
      [@"[一-龯]+株式会社",
       @"株式会社[一-龯]+",
       @"[一-龯]+有限会社",
       @"有限会社[一-龯]+",
       @"[一-龯]+㈱",
       @"㈱[一-龯]+",
       @"[一-龯]+法人"],
      ["会社", "法人", "団体", "組織", "株式会社", "㈱", "㈲", "合同会社"])
  ]

  // ---------------------------------------------------------------------------
  // Pattern confidence
  // ---------------------------------------------------------------------------

  /** The heuristic confidence of a match: 0.9, +0.05 for a match of ten or more
      characters, −0.2 for one of at most two, +0.05 when the pattern fixes a digit
      count (`\d{`), +0.03 when it uses a character class, clamped to [0.1, 1.0]. */
  function PatternConfidence(text: string, pattern: string): (c: real)
    ensures 0.1 <= c <= 1.0
    ensures 0.7 <= c
    ensures |text| <= 2 ==> c <= 0.78
    ensures |text| >= 10 ==> 0.95 <= c
    ensures 2 < |text| < 10 ==> 0.9 <= c <= 0.98
    ensures !Contains(pattern, @"\d{") && '[' !in pattern ==>
              c == (if |text| >= 10 then 0.95 else if |text| <= 2 then 0.7 else 0.9)
  {
    var lengthBonus := if |text| >= 10 then 0.05 else if |text| <= 2 then -0.2 else 0.0;
    var digitBonus := if Contains(pattern, @"\d{") then 0.05 else 0.0;
    var classBonus := if '[' in pattern then 0.03 else 0.0;
    var raw := 0.9 + lengthBonus + digitBonus + classBonus;
    if raw > 1.0 then 1.0 else if raw < 0.1 then 0.1 else raw
  }

  /** `_calculate_pattern_confidence`: the adjustments applied one after another. */
  method CalculatePatternConfidence(text: string, pattern: string) returns (c: real)
    ensures c == PatternConfidence(text, pattern)
  {
    var base := 0.9;
    if |text| >= 10 {
      base := base + 0.05;
    } else if |text| <= 2 {
      base := base - 0.2;
    }
    if Contains(pattern, @"\d{") {
      base := base + 0.05;
    }
    if '[' in pattern {
      base := base + 0.03;
    }
    var lower := if base > 0.1 then base else 0.1;
    c := if lower < 1.0 then lower else 1.0;
  }

  // ---------------------------------------------------------------------------
  // The box of a match span
  // ---------------------------------------------------------------------------

  /** The four-way selection test of `_find_coordinates_for_text_span`. For
      ordered spans it is exactly "the closed intervals meet", so a token that
      only touches the match at an end point is selected too. */
  predicate Selected(t: Token, start: int, end: int)
    ensures t.startPos <= t.endPos && start <= end ==>
              (Selected(t, start, end) <==> t.startPos <= end && start <= t.endPos)
  {
    (t.startPos >= start && t.endPos <= end) || (t.startPos <= start && t.endPos >= end)
    || (start <= t.startPos <= end) || (start <= t.endPos <= end)
  }

  /** The selected tokens, in token order. */
  function SelectedTokens(tokens: seq<Token>, start: int, end: int): (r: seq<Token>)
    ensures |r| <= |tokens|
    ensures forall t :: t in r <==> t in tokens && Selected(t, start, end)
  {
    if tokens == [] then []
    else
      var front := SelectedTokens(tokens[..|tokens| - 1], start, end);
      var t := tokens[|tokens| - 1];
      assert tokens == tokens[..|tokens| - 1] + [t];
      if Selected(t, start, end) then front + [t] else front
  }

  /** `[t["coordinates"] for t in ts if t["coordinates"]]`. */
  function BoxesOf(ts: seq<Token>): (bs: seq<Box>)
    ensures forall b :: b in bs <==> exists t :: t in ts && t.coords == Some(b)
  {
    if ts == [] then []
    else
      var front := BoxesOf(ts[..|ts| - 1]);
      var t := ts[|ts| - 1];
      assert ts == ts[..|ts| - 1] + [t];
      if t.coords.Some? then front + [t.coords.value] else front
  }

  function XMins(bs: seq<Box>): (r: seq<real>)
    ensures |r| == |bs| && forall k :: 0 <= k < |bs| ==> r[k] == bs[k].xMin
  {
    seq(|bs|, k requires 0 <= k < |bs| => bs[k].xMin)
  }
  function YMins(bs: seq<Box>): (r: seq<real>)
    ensures |r| == |bs| && forall k :: 0 <= k < |bs| ==> r[k] == bs[k].yMin
  {
    seq(|bs|, k requires 0 <= k < |bs| => bs[k].yMin)
  }
  function XMaxs(bs: seq<Box>): (r: seq<real>)
    ensures |r| == |bs| && forall k :: 0 <= k < |bs| ==> r[k] == bs[k].xMax
  {
    seq(|bs|, k requires 0 <= k < |bs| => bs[k].xMax)
  }
  function YMaxs(bs: seq<Box>): (r: seq<real>)
    ensures |r| == |bs| && forall k :: 0 <= k < |bs| ==> r[k] == bs[k].yMax
  {
    seq(|bs|, k requires 0 <= k < |bs| => bs[k].yMax)
  }

  /** The smallest box holding every box of a non-empty list, centred on the
      midpoint of its corners. */
  function UnionBox(bs: seq<Box>): (u: Box)
    requires |bs| > 0
    ensures forall k :: 0 <= k < |bs| ==> u.xMin <= bs[k].xMin && bs[k].xMax <= u.xMax
    ensures forall k :: 0 <= k < |bs| ==> u.yMin <= bs[k].yMin && bs[k].yMax <= u.yMax
    ensures exists k :: 0 <= k < |bs| && u.xMin == bs[k].xMin
    ensures exists k :: 0 <= k < |bs| && u.yMin == bs[k].yMin
    ensures exists k :: 0 <= k < |bs| && u.xMax == bs[k].xMax
    ensures exists k :: 0 <= k < |bs| && u.yMax == bs[k].yMax
    ensures u.centerX * 2.0 == u.xMin + u.xMax && u.centerY * 2.0 == u.yMin + u.yMax
    ensures (forall k :: 0 <= k < |bs| ==> WellFormed(bs[k])) ==> WellFormed(u)
  {
    var xMin, yMin, xMax, yMax := Min(XMins(bs)), Min(YMins(bs)), Max(XMaxs(bs)), Max(YMaxs(bs));
    MinMaxAttained(XMins(bs));
    MinMaxAttained(YMins(bs));
    MinMaxAttained(XMaxs(bs));
    MinMaxAttained(YMaxs(bs));
    assert XMins(bs)[0] == bs[0].xMin && XMaxs(bs)[0] == bs[0].xMax;
    assert YMins(bs)[0] == bs[0].yMin && YMaxs(bs)[0] == bs[0].yMax;
    Box(xMin, yMin, xMax, yMax, (xMin + xMax) / 2.0, (yMin + yMax) / 2.0)
  }

  /** The box of a match span: None (`{}`) when no selected token has
      coordinates, else the union of their boxes. */
  function SpanBox(tokens: seq<Token>, start: int, end: int): Option<Box> {
    var bs := BoxesOf(SelectedTokens(tokens, start, end));
    if bs == [] then None else Some(UnionBox(bs))
  }

  /** The span's box is absent exactly when no selected token has coordinates;
      otherwise it holds every selected token's box, and it is well formed when
      the token boxes are. */
  lemma SpanBoxProperties(tokens: seq<Token>, start: int, end: int)
    ensures var c := SpanBox(tokens, start, end);
            && (c.None? <==> forall t :: t in tokens && Selected(t, start, end) ==> t.coords.None?)
            && (c.Some? ==> forall t :: t in tokens && Selected(t, start, end) && t.coords.Some? ==>
                  c.value.xMin <= t.coords.value.xMin && t.coords.value.xMax <= c.value.xMax &&
                  c.value.yMin <= t.coords.value.yMin && t.coords.value.yMax <= c.value.yMax)
            && (c.Some? && (forall t :: t in tokens && t.coords.Some? ==> WellFormed(t.coords.value)) ==>
                  WellFormed(c.value))
  {
    var bs := BoxesOf(SelectedTokens(tokens, start, end));
    if bs != [] {
      var u := UnionBox(bs);
      forall t | t in tokens && Selected(t, start, end) && t.coords.Some?
        ensures u.xMin <= t.coords.value.xMin && t.coords.value.xMax <= u.xMax
        ensures u.yMin <= t.coords.value.yMin && t.coords.value.yMax <= u.yMax
      {
        assert t.coords.value in bs;
        var k :| 0 <= k < |bs| && bs[k] == t.coords.value;
      }
      if forall t :: t in tokens && t.coords.Some? ==> WellFormed(t.coords.value) {
        forall k | 0 <= k < |bs|
          ensures WellFormed(bs[k])
        {
          assert bs[k] in bs;
        }
      }
      assert bs[0] in bs;
    }
  }

  /** `_find_coordinates_for_text_span`. */
  method FindCoordinatesForTextSpan(tokens: seq<Token>, start: int, end: int) returns (c: Option<Box>)
    ensures c == SpanBox(tokens, start, end)
  {
    var matching: seq<Token> := [];
    for i := 0 to |tokens|
      invariant matching == SelectedTokens(tokens[..i], start, end)
    {
      assert tokens[..i + 1][..i] == tokens[..i];
      if Selected(tokens[i], start, end) {
        matching := matching + [tokens[i]];
      }
    }
    assert tokens[..|tokens|] == tokens;
    if matching == [] {
      return None;
    }
    var allCoords := BoxesOf(matching);
    if allCoords == [] {
      return None;
    }
    c := Some(UnionBox(allCoords));
  }

  // ---------------------------------------------------------------------------
  // Context clues
  // ---------------------------------------------------------------------------

  /** The neighbourhood of a clue hit at `i`: `[max(0, i−5), min(n, i+6))`. */
  function WindowLo(i: int): int { if i - 5 > 0 then i - 5 else 0 }
  function WindowHi(i: int, n: int): int { if i + 6 < n then i + 6 else n }

  /** The candidate made from a neighbouring token: its stripped text, its
      confidence scaled by 0.8, its box. */
  function ContextCandidate(t: Token, clue: string): Candidate {
    Candidate(Strip(t.text), t.confidence * 0.8, ContextClue(clue), t.coords)
  }

  /** Candidates from the neighbours `lo .. j-1` of the hit at `i`. */
  function Neighbours(tokens: seq<Token>, clue: string, fieldName: string, i: int, lo: int, j: int): seq<Candidate>
    requires 0 <= lo <= j <= |tokens|
    decreases j - lo
  {
    if j == lo then []
    else
      Neighbours(tokens, clue, fieldName, i, lo, j - 1)
      + (if j - 1 != i && SmartValid(tokens[j - 1].text, fieldName) then [ContextCandidate(tokens[j - 1], clue)] else [])
  }

  /** Candidates from a clue hit at token `i` (none when the clue is absent). */
  function HitsAt(tokens: seq<Token>, clue: string, fieldName: string, i: int): seq<Candidate>
    requires 0 <= i < |tokens|
  {
    if Contains(tokens[i].text, clue) then
      Neighbours(tokens, clue, fieldName, i, WindowLo(i), WindowHi(i, |tokens|))
    else []
  }

  /** Candidates from the hits among the first `m` tokens, in scan order. */
  function ContextValues(tokens: seq<Token>, clue: string, fieldName: string, m: int): seq<Candidate>
    requires 0 <= m <= |tokens|
  {
    if m == 0 then [] else ContextValues(tokens, clue, fieldName, m - 1) + HitsAt(tokens, clue, fieldName, m - 1)
  }

  /** Token `j` is a valid neighbour of a hit of `clue` at token `i`. */
  predicate ValidNeighbour(tokens: seq<Token>, clue: string, fieldName: string, i: int, j: int) {
    0 <= i < |tokens| && Contains(tokens[i].text, clue)
    && WindowLo(i) <= j < WindowHi(i, |tokens|) && j != i
    && SmartValid(tokens[j].text, fieldName)
  }

  /** `_find_context_based_values`. */
  method FindContextBasedValues(tokens: seq<Token>, clue: string, fieldName: string) returns (results: seq<Candidate>)
    ensures results == ContextValues(tokens, clue, fieldName, |tokens|)
  {
    results := [];
    for i := 0 to |tokens|
      invariant results == ContextValues(tokens, clue, fieldName, i)
    {
      var hits := NeighbourValues(tokens, clue, fieldName, i);
      results := results + hits;
    }
  }

  /** The inner loop of `_find_context_based_values` for token `i`. */
  method NeighbourValues(tokens: seq<Token>, clue: string, fieldName: string, i: int) returns (results: seq<Candidate>)
    requires 0 <= i < |tokens|
    ensures results == HitsAt(tokens, clue, fieldName, i)
  {
    results := [];
    if Contains(tokens[i].text, clue) {
      var searchRange := 5;
      var startIdx := if i - searchRange > 0 then i - searchRange else 0;
      var endIdx := if i + searchRange + 1 < |tokens| then i + searchRange + 1 else |tokens|;
      assert startIdx == WindowLo(i) && endIdx == WindowHi(i, |tokens|);
      for j := startIdx to endIdx
        invariant results == Neighbours(tokens, clue, fieldName, i, startIdx, j)
      {
        if j != i && SmartValid(tokens[j].text, fieldName) {
          results := results + [ContextCandidate(tokens[j], clue)];
        }
      }
    }
  }

  lemma {:induction false} NeighboursSound(tokens: seq<Token>, clue: string, fieldName: string, i: int, lo: int, j: int)
    requires 0 <= lo <= j <= |tokens|
    ensures forall c :: c in Neighbours(tokens, clue, fieldName, i, lo, j) ==>
              exists k :: lo <= k < j && k != i && SmartValid(tokens[k].text, fieldName) && c == ContextCandidate(tokens[k], clue)
  {
    if j > lo {
      NeighboursSound(tokens, clue, fieldName, i, lo, j - 1);
    }
  }

  lemma {:induction false} NeighboursComplete(tokens: seq<Token>, clue: string, fieldName: string, i: int, lo: int, j: int, k: int)
    requires 0 <= lo <= k < j <= |tokens| && k != i && SmartValid(tokens[k].text, fieldName)
    ensures ContextCandidate(tokens[k], clue) in Neighbours(tokens, clue, fieldName, i, lo, j)
  {
    var prev := Neighbours(tokens, clue, fieldName, i, lo, j - 1);
    var c := ContextCandidate(tokens[k], clue);
    if k < j - 1 {
      NeighboursComplete(tokens, clue, fieldName, i, lo, j - 1, k);
      var m :| 0 <= m < |prev| && prev[m] == c;
      assert Neighbours(tokens, clue, fieldName, i, lo, j)[m] == c;
    } else {
      assert Neighbours(tokens, clue, fieldName, i, lo, j) == prev + [c];
    }
  }

  /** Every context candidate is the candidate of a valid neighbour of a clue
      hit: the neighbour's stripped text, its box and 0.8 × its confidence. */
  lemma {:induction false} ContextValuesSound(tokens: seq<Token>, clue: string, fieldName: string, m: int)
    requires 0 <= m <= |tokens|
    ensures forall c :: c in ContextValues(tokens, clue, fieldName, m) ==>
              exists i, j :: 0 <= i < m && ValidNeighbour(tokens, clue, fieldName, i, j) && c == ContextCandidate(tokens[j], clue)
  {
    if m > 0 {
      var i := m - 1;
      var prev := ContextValues(tokens, clue, fieldName, i);
      var hits := HitsAt(tokens, clue, fieldName, i);
      ContextValuesSound(tokens, clue, fieldName, i);
      if Contains(tokens[i].text, clue) {
        NeighboursSound(tokens, clue, fieldName, i, WindowLo(i), WindowHi(i, |tokens|));
      }
      forall c | c in prev + hits
        ensures exists i', j :: 0 <= i' < m && ValidNeighbour(tokens, clue, fieldName, i', j) && c == ContextCandidate(tokens[j], clue)
      {
        if c in prev {
          var i', j :| 0 <= i' < i && ValidNeighbour(tokens, clue, fieldName, i', j) && c == ContextCandidate(tokens[j], clue);
        } else {
          var j :| WindowLo(i) <= j < WindowHi(i, |tokens|) && j != i && SmartValid(tokens[j].text, fieldName)
                   && c == ContextCandidate(tokens[j], clue);
          assert ValidNeighbour(tokens, clue, fieldName, i, j);
        }
      }
    }
  }

  /** Every valid neighbour of every clue hit yields a candidate. */
  lemma {:induction false} ContextValuesComplete(tokens: seq<Token>, clue: string, fieldName: string, m: int, i: int, j: int)
    requires 0 <= i < m <= |tokens| && ValidNeighbour(tokens, clue, fieldName, i, j)
    ensures ContextCandidate(tokens[j], clue) in ContextValues(tokens, clue, fieldName, m)
  {
    if i < m - 1 {
      ContextValuesComplete(tokens, clue, fieldName, m - 1, i, j);
    } else {
      NeighboursComplete(tokens, clue, fieldName, i, WindowLo(i), WindowHi(i, |tokens|), j);
    }
  }

  // ---------------------------------------------------------------------------
  // Collecting candidates
  // ---------------------------------------------------------------------------

  /** The candidates of one pattern's matches, in match order. */
  function MatchCandidates(tokens: seq<Token>, fullText: string, pattern: string, spans: seq<Span>): (r: seq<Candidate>)
    ensures |r| == |spans|
    ensures forall k :: 0 <= k < |r| ==> r[k].origin == PatternMatch(pattern)
  {
    if spans == [] then []
    else
      var m := spans[|spans| - 1];
      var group := Slice(fullText, m.start, m.end);
      MatchCandidates(tokens, fullText, pattern, spans[..|spans| - 1])
      + [Candidate(Strip(group), PatternConfidence(group, pattern), PatternMatch(pattern), SpanBox(tokens, m.start, m.end))]
  }

  /** All pattern-match candidates, pattern by pattern. */
  function PatternCandidates(tokens: seq<Token>, fullText: string, patterns: seq<string>, finditer: FindIter): (r: seq<Candidate>)
    ensures forall c :: c in r ==> c.origin.PatternMatch? && c.origin.pattern in patterns
  {
    if patterns == [] then []
    else
      var p := patterns[|patterns| - 1];
      PatternCandidates(tokens, fullText, patterns[..|patterns| - 1], finditer)
      + MatchCandidates(tokens, fullText, p, finditer(p, fullText))
  }

  /** All context candidates, clue by clue. */
  function ClueCandidates(tokens: seq<Token>, fieldName: string, clues: seq<string>): (r: seq<Candidate>)
    ensures forall c :: c in r ==> c.origin.ContextClue? && c.origin.clue in clues
  {
    if clues == [] then []
    else
      var clue := clues[|clues| - 1];
      var front := ClueCandidates(tokens, fieldName, clues[..|clues| - 1]);
      var last := ContextValues(tokens, clue, fieldName, |tokens|);
      ContextValuesSound(tokens, clue, fieldName, |tokens|);
      assert forall c :: c in front + last ==> c in front || c in last;
      front + last
  }

  /** `found_values`: the pattern-match candidates, then the context candidates. */
  function FoundValues(config: FieldConfig, tokens: seq<Token>, fullText: string, finditer: FindIter): seq<Candidate> {
    PatternCandidates(tokens, fullText, config.patterns, finditer) + ClueCandidates(tokens, config.name, config.clues)
  }

  // ---------------------------------------------------------------------------
  // De-duplication
  // ---------------------------------------------------------------------------

  function ValueSet(s: seq<Candidate>): set<string> {
    set k | 0 <= k < |s| :: s[k].value
  }

  predicate DistinctValues(s: seq<Candidate>) {
    forall i, j :: 0 <= i < j < |s| ==> s[i].value != s[j].value
  }

  /** No earlier element carries the same text as element `k`. */
  predicate FirstOccurrence(s: seq<Candidate>, k: int)
    requires 0 <= k < |s|
  {
    forall j :: 0 <= j < k ==> s[j].value != s[k].value
  }

  /** `_deduplicate_values` as a specification: scanning left to right, keep an
      element when its text has not been kept before. */
  function Dedup(s: seq<Candidate>): (d: seq<Candidate>)
    ensures |d| <= |s|
  {
    if s == [] then []
    else
      var d := Dedup(s[..|s| - 1]);
      if s[|s| - 1].value in ValueSet(d) then d else d + [s[|s| - 1]]
  }

  /** The positions `Dedup` keeps, as a witness that its result is a subsequence. */
  ghost function KeptIndices(s: seq<Candidate>): seq<int> {
    if s == [] then []
    else
      var d := Dedup(s[..|s| - 1]);
      var idx := KeptIndices(s[..|s| - 1]);
      if s[|s| - 1].value in ValueSet(d) then idx else idx + [|s| - 1]
  }

  lemma ValueSetAppend(s: seq<Candidate>, x: Candidate)
    ensures ValueSet(s + [x]) == ValueSet(s) + {x.value}
  {
    var t := s + [x];
    assert forall k :: 0 <= k < |s| ==> t[k] == s[k];
    assert t[|s|] == x;
  }

  /** Every input text still appears after de-duplication. */
  lemma {:induction false} DedupValueSet(s: seq<Candidate>)
    ensures ValueSet(Dedup(s)) == ValueSet(s)
  {
    if s != [] {
      var front := s[..|s| - 1];
      var x := s[|s| - 1];
      DedupValueSet(front);
      assert s == front + [x];
      ValueSetAppend(front, x);
      ValueSetAppend(Dedup(front), x);
    }
  }

  /** The kept texts are pairwise distinct. */
  lemma {:induction false} DedupDistinct(s: seq<Candidate>)
    ensures DistinctValues(Dedup(s))
  {
    if s != [] {
      var front := s[..|s| - 1];
      DedupDistinct(front);
      var d := Dedup(front);
      var x := s[|s| - 1];
      if x.value !in ValueSet(d) {
        var r := d + [x];
        forall i, j | 0 <= i < j < |r|
          ensures r[i].value != r[j].value
        {
          if j == |d| {
            assert r[i].value in ValueSet(d);
          }
        }
      }
    }
  }

  /** `KeptIndices` picks, in increasing order, the input positions of the kept
      elements. */
  lemma {:induction false} KeptIndicesSubsequence(s: seq<Candidate>)
    ensures |KeptIndices(s)| == |Dedup(s)|
    ensures forall m :: 0 <= m < |Dedup(s)| ==> 0 <= KeptIndices(s)[m] < |s| && Dedup(s)[m] == s[KeptIndices(s)[m]]
    ensures forall m, m' :: 0 <= m < m' < |KeptIndices(s)| ==> KeptIndices(s)[m] < KeptIndices(s)[m']
  {
    if s != [] {
      var n := |s| - 1;
      KeptIndicesSubsequence(s[..n]);
      assert forall k :: 0 <= k < n ==> s[k] == s[..n][k];
    }
  }

  /** Each kept position is the first occurrence of its text. */
  lemma {:induction false} KeptIndicesFirst(s: seq<Candidate>)
    ensures |KeptIndices(s)| == |Dedup(s)|
    ensures forall m :: 0 <= m < |KeptIndices(s)| ==> 0 <= KeptIndices(s)[m] < |s| && FirstOccurrence(s, KeptIndices(s)[m])
  {
    KeptIndicesSubsequence(s);
    if s != [] {
      var n := |s| - 1;
      var front := s[..n];
      var x := s[n];
      KeptIndicesFirst(front);
      DedupValueSet(front);
      var idx := KeptIndices(front);
      assert forall k :: 0 <= k < n ==> s[k] == front[k];
      assert forall m :: 0 <= m < |idx| ==> FirstOccurrence(s, idx[m]);
      if x.value !in ValueSet(Dedup(front)) {
        forall j | 0 <= j < n
          ensures s[j].value != x.value
        {
          assert front[j].value in ValueSet(front);
        }
        assert FirstOccurrence(s, n);
      }
    }
  }

  /** Every first occurrence is kept. */
  lemma {:induction false} FirstOccurrencesKept(s: seq<Candidate>)
    ensures forall k :: 0 <= k < |s| && FirstOccurrence(s, k) ==> k in KeptIndices(s)
  {
    if s != [] {
      var n := |s| - 1;
      var front := s[..n];
      var x := s[n];
      FirstOccurrencesKept(front);
      DedupValueSet(front);
      assert forall k :: 0 <= k < n ==> s[k] == front[k];
      assert forall k :: 0 <= k < n && FirstOccurrence(s, k) ==> FirstOccurrence(front, k);
      if FirstOccurrence(s, n) {
        forall j | 0 <= j < n
          ensures front[j].value != x.value
        {
          assert s[j].value != s[n].value;
        }
        assert x.value !in ValueSet(front);
      }
    }
  }

  /** The result is the subsequence of the input at the first occurrence of each
      text, in input order. */
  lemma DedupKeepsFirstOccurrences(s: seq<Candidate>)
    ensures |KeptIndices(s)| == |Dedup(s)|
    ensures forall m :: 0 <= m < |Dedup(s)| ==>
              0 <= KeptIndices(s)[m] < |s| && Dedup(s)[m] == s[KeptIndices(s)[m]] && FirstOccurrence(s, KeptIndices(s)[m])
    ensures forall m, m' :: 0 <= m < m' < |KeptIndices(s)| ==> KeptIndices(s)[m] < KeptIndices(s)[m']
    ensures forall k :: 0 <= k < |s| && FirstOccurrence(s, k) ==> k in KeptIndices(s)
  {
    KeptIndicesSubsequence(s);
    KeptIndicesFirst(s);
    FirstOccurrencesKept(s);
  }

  /** De-duplicating text-distinct candidates changes nothing. */
  lemma {:induction false} DedupOfDistinct(s: seq<Candidate>)
    requires DistinctValues(s)
    ensures Dedup(s) == s
  {
    if s != [] {
      var n := |s| - 1;
      var front, x := s[..n], s[n];
      assert DistinctValues(front) by {
        forall i, j | 0 <= i < j < n ensures front[i].value != front[j].value {
          assert front[i] == s[i] && front[j] == s[j];
        }
      }
      DedupOfDistinct(front);
      forall k | 0 <= k < n
        ensures front[k].value != x.value
      {
        assert s[k].value != s[n].value;
      }
      assert x.value !in ValueSet(front);
      assert Dedup(s) == front + [x];
      assert s == front + [x];
    }
  }

  /** De-duplication is idempotent. */
  lemma DedupIdempotent(s: seq<Candidate>)
    ensures Dedup(Dedup(s)) == Dedup(s)
  {
    DedupDistinct(s);
    DedupOfDistinct(Dedup(s));
  }

  /** The number of survivors is the number of distinct texts. */
  lemma {:induction false} DistinctCount(s: seq<Candidate>)
    requires DistinctValues(s)
    ensures |ValueSet(s)| == |s|
  {
    if s != [] {
      var front := s[..|s| - 1];
      var x := s[|s| - 1];
      DistinctCount(front);
      ValueSetAppend(front, x);
      assert s == front + [x];
      forall k | 0 <= k < |front|
        ensures front[k].value != x.value
      {
        assert s[k].value != s[|s| - 1].value;
      }
      assert x.value !in ValueSet(front);
    }
  }

  /** On a text collision the earlier list wins: every survivor whose text occurs
      in `a` is an element of `a`. */
  lemma DedupPrefersEarlier(a: seq<Candidate>, b: seq<Candidate>)
    ensures forall c :: c in Dedup(a + b) && c.value in ValueSet(a) ==> c in a
  {
    var s := a + b;
    DedupKeepsFirstOccurrences(s);
    forall c | c in Dedup(s) && c.value in ValueSet(a)
      ensures c in a
    {
      var m :| 0 <= m < |Dedup(s)| && Dedup(s)[m] == c;
      var k := KeptIndices(s)[m];
      var j :| 0 <= j < |a| && a[j].value == c.value;
      assert s[j].value == s[k].value;
      assert k <= j;
      assert s[k] == a[k];
    }
  }

  /** `_deduplicate_values`: a seen-set and a list appended in a loop. */
  method DeduplicateValues(values: seq<Candidate>) returns (unique: seq<Candidate>)
    ensures unique == Dedup(values)
  {
    var seen: set<string> := {};
    unique := [];
    for i := 0 to |values|
      invariant unique == Dedup(values[..i])
      invariant seen == ValueSet(unique)
    {
      assert values[..i + 1][..i] == values[..i];
      var valueText := values[i].value;
      if valueText !in seen {
        ValueSetAppend(unique, values[i]);
        seen := seen + {valueText};
        unique := unique + [values[i]];
      }
    }
    assert values[..|values|] == values;
  }

  // ---------------------------------------------------------------------------
  // Ranking and the per-field result
  // ---------------------------------------------------------------------------

  function Confidence(c: Candidate): real { c.confidence }

  /** Ranking the survivors: None without survivors, else the count, the best
      and the first five of the stable descending sort. */
  function Summarize(fieldName: string, unique: seq<Candidate>): Option<FieldResult> {
    var sorted := SortDesc(unique, Confidence);
    if sorted == [] then None else Some(FieldResult(|sorted|, sorted[0], Slice(sorted, 0, 5), fieldName))
  }

  /** `_extract_field_by_patterns` as a specification. */
  function FieldByPatterns(config: FieldConfig, tokens: seq<Token>, fullText: string, finditer: FindIter): Option<FieldResult> {
    Summarize(config.name, Dedup(FoundValues(config, tokens, fullText, finditer)))
  }

  /** The per-field result: absent iff nothing survives; otherwise the count is
      the number of distinct texts (not capped at five), at most five candidates
      are listed in non-increasing confidence, the best is the first listed, is
      the first survivor of maximal confidence and is at least as confident as
      every survivor. */
  lemma SummarizeProperties(fieldName: string, unique: seq<Candidate>)
    requires DistinctValues(unique)
    ensures Summarize(fieldName, unique).None? <==> unique == []
    ensures Summarize(fieldName, unique).Some? ==>
              var r := Summarize(fieldName, unique).value;
              && r.count == |unique| == |ValueSet(unique)|
              && r.fieldType == fieldName
              && |r.top| == (if |unique| < 5 then |unique| else 5)
              && SortedDesc(r.top, Confidence)
              && r.top[0] == r.best
              && r.best == unique[FirstMax(unique, Confidence)]
              && (forall c :: c in unique ==> c.confidence <= r.best.confidence)
              && (forall c :: c in r.top ==> c in unique)
  {
    var sorted := SortDesc(unique, Confidence);
    DistinctCount(unique);
    if unique != [] {
      SortDescSorted(unique, Confidence);
      SortDescPermutation(unique, Confidence);
      SortDescHead(unique, Confidence);
      var top := Slice(sorted, 0, 5);
      assert top == sorted[..|top|];
      forall c | c in top
        ensures c in unique
      {
        assert c in multiset(sorted);
      }
    }
  }

  /** A text found by a pattern is always reported with its pattern-match
      candidate, whatever the confidence of a context candidate with the same
      text. */
  lemma PatternMatchWinsCollisions(config: FieldConfig, tokens: seq<Token>, fullText: string, finditer: FindIter)
    ensures var pats := PatternCandidates(tokens, fullText, config.patterns, finditer);
            forall c :: c in Dedup(FoundValues(config, tokens, fullText, finditer)) && c.value in ValueSet(pats) ==>
              c.origin.PatternMatch?
  {
    var pats := PatternCandidates(tokens, fullText, config.patterns, finditer);
    DedupPrefersEarlier(pats, ClueCandidates(tokens, config.name, config.clues));
  }

  /** `_extract_field_by_patterns`. */
  method ExtractFieldByPatterns(config: FieldConfig, tokens: seq<Token>, fullText: string, finditer: FindIter)
    returns (r: Option<FieldResult>)
    ensures r == FieldByPatterns(config, tokens, fullText, finditer)
  {
    var found := PatternMatchValues(tokens, fullText, config.patterns, finditer);
    var clueValues := ClueValues(tokens, config.name, config.clues);
    found := found + clueValues;
    var unique := DeduplicateValues(found);
    var sorted := SortByKeyDesc(unique, Confidence);
    if sorted == [] {
      r := None;
    } else {
      r := Some(FieldResult(|sorted|, sorted[0], Slice(sorted, 0, 5), config.name));
    }
  }

  /** The clue loop of `_extract_field_by_patterns`. */
  method ClueValues(tokens: seq<Token>, fieldName: string, clues: seq<string>) returns (found: seq<Candidate>)
    ensures found == ClueCandidates(tokens, fieldName, clues)
  {
    found := [];
    for ci := 0 to |clues|
      invariant found == ClueCandidates(tokens, fieldName, clues[..ci])
    {
      var clueMatches := FindContextBasedValues(tokens, clues[ci], fieldName);
      assert clues[..ci + 1][..ci] == clues[..ci];
      found := found + clueMatches;
    }
    assert clues[..|clues|] == clues;
  }

  /** The pattern loop of `_extract_field_by_patterns`: every match of every
      pattern, with its span's box and its heuristic confidence. */
  method PatternMatchValues(tokens: seq<Token>, fullText: string, patterns: seq<string>, finditer: FindIter)
    returns (found: seq<Candidate>)
    ensures found == PatternCandidates(tokens, fullText, patterns, finditer)
  {
    found := [];
    for pi := 0 to |patterns|
      invariant found == PatternCandidates(tokens, fullText, patterns[..pi], finditer)
    {
      var pattern := patterns[pi];
      var matches := finditer(pattern, fullText);
      var values := MatchValues(tokens, fullText, pattern, matches);
      assert patterns[..pi + 1][..pi] == patterns[..pi];
      found := found + values;
    }
    assert patterns[..|patterns|] == patterns;
  }

  /** The match loop for one pattern. */
  method MatchValues(tokens: seq<Token>, fullText: string, pattern: string, matches: seq<Span>)
    returns (found: seq<Candidate>)
    ensures found == MatchCandidates(tokens, fullText, pattern, matches)
  {
    found := [];
    for mi := 0 to |matches|
      invariant found == MatchCandidates(tokens, fullText, pattern, matches[..mi])
    {
      var m := matches[mi];
      var matchCoords := FindCoordinatesForTextSpan(tokens, m.start, m.end);
      var group := Slice(fullText, m.start, m.end);
      var confidence := CalculatePatternConfidence(group, pattern);
      assert matches[..mi + 1][..mi] == matches[..mi];
      found := found + [Candidate(Strip(group), confidence, PatternMatch(pattern), matchCoords)];
    }
    assert matches[..|matches|] == matches;
  }

  // ---------------------------------------------------------------------------
  // The entry point
  // ---------------------------------------------------------------------------

  /** The per-field search of the smart extractor. */
  function FieldSearch(tokens: seq<Token>, fullText: string, finditer: FindIter): FieldConfig -> Option<FieldResult> {
    c => FieldByPatterns(c, tokens, fullText, finditer)
  }

  function ConfigName(c: FieldConfig): string { c.name }

  /** The fields found, in registry order, as a specification: a field is
      present exactly when its search yields a result (see `Dicts`). */
  function SmartFields(configs: seq<FieldConfig>, tokens: seq<Token>, fullText: string, finditer: FindIter)
    : (r: seq<(string, FieldResult)>)
  {
    Collect(configs, ConfigName, FieldSearch(tokens, fullText, finditer))
  }

  /** The registry names its fields once each, so `CollectPresent` and
      `CollectAbsent` describe `SmartFields(Registry, ...)` field by field. */
  lemma RegistryNamesDistinct()
    ensures DistinctKeys(Registry, ConfigName)
  {
    var names := ["日付", "金額", "氏名", "住所", "電話番号", "メールアドレス", "会社名"];
    assert forall i :: 0 <= i < |Registry| ==> ConfigName(Registry[i]) == names[i];
  }

  /** The registry loop of `extract_smart_fields`. */
  method ExtractAllFields(configs: seq<FieldConfig>, tokens: seq<Token>, fullText: string, finditer: FindIter)
    returns (extracted: seq<(string, FieldResult)>)
    ensures extracted == SmartFields(configs, tokens, fullText, finditer)
  {
    extracted := [];
    for i := 0 to |configs|
      invariant extracted == SmartFields(configs[..i], tokens, fullText, finditer)
    {
      var config := configs[i];
      var fieldResults := ExtractFieldByPatterns(config, tokens, fullText, finditer);
      assert configs[..i + 1][..i] == configs[..i];
      if fieldResults.Some? {
        extracted := extracted + [(config.name, fieldResults.value)];
      }
    }
    assert configs[..|configs|] == configs;
  }

  /** `extract_smart_fields`: no pages gives the error map; otherwise the first
      page's tokens are searched for every registry field, and the statistics
      count and list the fields found. */
  method ExtractSmartFields(doc: RawDocument, processedAt: string, finditer: FindIter) returns (out: SmartOutput)
    ensures doc.pages == [] <==> out == SmartError("No pages found")
    ensures doc.pages != [] ==>
              var fullText := DocText(doc);
              var tokens := Tokens(doc.pages[0].tokens, fullText);
              && out.SmartResult?
              && out.info == DocSummary(processedAt, |doc.pages|, |fullText|, |tokens|)
              && out.fields == SmartFields(Registry, tokens, fullText, finditer)
              && out.fieldCount == |out.fields|
              && out.fieldTypes == seq(|out.fields|, k requires 0 <= k < |out.fields| => out.fields[k].0)
  {
    if doc.pages == [] {
      return SmartError("No pages found");
    }
    var fullText := DocText(doc);
    var page := doc.pages[0];
    var tokens := ExtractTokens(page.tokens, fullText);
    var extracted := ExtractAllFields(Registry, tokens, fullText, finditer);
    var names := seq(|extracted|, k requires 0 <= k < |extracted| => extracted[k].0);
    out := SmartResult(DocSummary(processedAt, |doc.pages|, |fullText|, |tokens|), extracted, |extracted|, names);
  }
}
