/** The flat-text parsers of test_ocr_for_doc1/lib/data_parser.py: a field list
    describes what to look for, `SequentialKeyParser` scans lines for a key and
    takes the rest of the line or the following lines, `KeyValuePairParser`
    reads `label: value` pairs, and `DataParser` holds a strategy and a field
    list. The regular-expression engine is an oracle: `Search` stands for
    `re.search(pattern, line, re.IGNORECASE)`, `FindPairs` for the `findall` of
    the key/value pattern. */
module DataParsing {
  import opened Common

  /** `Field`: the key, the patterns that recognise it, and its flags. */
  datatype Field = Field(key: string, patterns: seq<string>, required: bool := true, multiline: bool := false)

  /** `ParseResult`. */
  datatype ParseResult = ParseResult(data: map<string, string>, missingFields: seq<string>, warnings: seq<string>)

  type Search = (string, string) -> Option<Span>

  /** `re.findall(r'([^:\n]+)[：:]\s*([^\n]+)', text)`: the label and value groups
      of every match, in text order. */
  type FindPairs = string -> seq<(string, string)>

  const EmptyTextWarning: string := "入力テキストが空です"

  function NotFoundWarning(key: string): string {
    "必須フィールド '" + key + "' が見つかりませんでした"
  }

  function MissingWarning(missing: seq<string>): string {
    "必須フィールドが見つかりません: " + Join(missing, ", ")
  }

  // ---------------------------------------------------------------------------
  // Required and missing keys
  // ---------------------------------------------------------------------------

  /** `[f.key for f in fields if f.required]`. */
  function RequiredKeys(fields: seq<Field>): seq<string> {
    if fields == [] then []
    else
      var f := fields[|fields| - 1];
      RequiredKeys(fields[..|fields| - 1]) + (if f.required then [f.key] else [])
  }

  /** `[f.key for f in fields if f.required and f.key not in data]`. */
  function MissingKeys(fields: seq<Field>, data: map<string, string>): seq<string> {
    if fields == [] then []
    else
      var f := fields[|fields| - 1];
      MissingKeys(fields[..|fields| - 1], data) + (if f.required && f.key !in data then [f.key] else [])
  }

  /** A key is reported missing exactly when some required field has it and the
      data lacks it. */
  lemma {:induction false} MissingKeysSpec(fields: seq<Field>, data: map<string, string>, k: string)
    ensures k in MissingKeys(fields, data) <==> k !in data && exists a :: 0 <= a < |fields| && fields[a].required && fields[a].key == k
  {
    if fields != [] {
      var n := |fields| - 1;
      MissingKeysSpec(fields[..n], data, k);
      if exists a :: 0 <= a < n && fields[..n][a].required && fields[..n][a].key == k {
        var a :| 0 <= a < n && fields[..n][a].required && fields[..n][a].key == k;
        assert fields[a] == fields[..n][a];
      }
      if exists a :: 0 <= a < |fields| && fields[a].required && fields[a].key == k {
        var a :| 0 <= a < |fields| && fields[a].required && fields[a].key == k;
        if a < n {
          assert fields[..n][a] == fields[a];
        }
      }
    }
  }

  /** With no data, every required key is missing. */
  lemma {:induction false} MissingKeysOfEmpty(fields: seq<Field>)
    ensures MissingKeys(fields, map[]) == RequiredKeys(fields)
  {
    if fields != [] {
      MissingKeysOfEmpty(fields[..|fields| - 1]);
    }
  }

  /** Adding an entry for a key no field has leaves the missing list alone. */
  lemma {:induction false} MissingKeysFrame(fields: seq<Field>, data: map<string, string>, k: string, v: string)
    requires forall a :: 0 <= a < |fields| ==> fields[a].key != k
    ensures MissingKeys(fields, data[k := v]) == MissingKeys(fields, data)
  {
    if fields != [] {
      var n := |fields| - 1;
      assert forall a :: 0 <= a < n ==> fields[..n][a] == fields[a];
      MissingKeysFrame(fields[..n], data, k, v);
    }
  }

  /** The answer to empty input, in every entry point. */
  function EmptyResult(fields: seq<Field>): ParseResult {
    ParseResult(map[], RequiredKeys(fields), [EmptyTextWarning])
  }

  /** No two fields share a key. */
  predicate DistinctKeys(fields: seq<Field>) {
    forall a, b :: 0 <= a < b < |fields| ==> fields[a].key != fields[b].key
  }

  // ---------------------------------------------------------------------------
  // `SequentialKeyParser._is_field_key`
  // ---------------------------------------------------------------------------

  /** Some pattern of some field matches the line. */
  predicate FieldKey(line: string, fields: seq<Field>, search: Search) {
    exists a, b :: 0 <= a < |fields| && 0 <= b < |fields[a].patterns| && search(fields[a].patterns[b], line).Some?
  }

  method IsFieldKey(line: string, fields: seq<Field>, search: Search) returns (isKey: bool)
    ensures isKey == FieldKey(line, fields, search)
  {
    for a := 0 to |fields|
      invariant forall a', b :: 0 <= a' < a && 0 <= b < |fields[a'].patterns| ==> search(fields[a'].patterns[b], line).None?
    {
      var patterns := fields[a].patterns;
      for b := 0 to |patterns|
        invariant forall b' :: 0 <= b' < b ==> search(patterns[b'], line).None?
      {
        if search(patterns[b], line).Some? {
          return true;
        }
      }
    }
    return false;
  }

  // ---------------------------------------------------------------------------
  // `SequentialKeyParser._extract_field_value`
  // ---------------------------------------------------------------------------

  /** The stripped lines `lines[j..hi]` up to (not including) the first blank
      line or key line. */
  function ContinuationFrom(lines: seq<string>, j: nat, hi: int, fields: seq<Field>, search: Search): seq<string>
    requires hi <= |lines|
    decreases hi - j
  {
    if j >= hi then []
    else
      var next := Strip(lines[j]);
      if next == [] || FieldKey(next, fields, search) then [] else [next] + ContinuationFrom(lines, j + 1, hi, fields, search)
  }

  /** The continuation is a run of consecutive lines: each one stripped,
      non-blank and not a key line, and the run stops at the bound or at a blank
      or key line. */
  lemma {:induction false} ContinuationSpec(lines: seq<string>, j: nat, hi: int, fields: seq<Field>, search: Search)
    requires hi <= |lines|
    ensures var r := ContinuationFrom(lines, j, hi, fields, search);
            && j + |r| <= (if hi < j then j else hi)
            && (forall t :: 0 <= t < |r| ==> r[t] == Strip(lines[j + t]) && r[t] != [] && !FieldKey(r[t], fields, search))
            && (j + |r| < hi ==> Strip(lines[j + |r|]) == [] || FieldKey(Strip(lines[j + |r|]), fields, search))
    decreases hi - j
  {
    if j < hi {
      var next := Strip(lines[j]);
      if next != [] && !FieldKey(next, fields, search) {
        ContinuationSpec(lines, j + 1, hi, fields, search);
        var rest := ContinuationFrom(lines, j + 1, hi, fields, search);
        var r := ContinuationFrom(lines, j, hi, fields, search);
        assert r == [next] + rest;
        forall t | 0 <= t < |r| ensures r[t] == Strip(lines[j + t]) && r[t] != [] && !FieldKey(r[t], fields, search) {
          if t > 0 {
            assert r[t] == rest[t - 1];
          }
        }
      }
    }
  }

  /** `min(i + max_value_lines + 1, len(lines))`. */
  function ContinuationEnd(i: int, maxValueLines: int, n: int): int {
    if i + maxValueLines + 1 < n then i + maxValueLines + 1 else n
  }

  /** The value a key match on line `i` gives, if any. */
  function ValueAt(lines: seq<string>, i: nat, m: Span, field: Field, fields: seq<Field>, maxValueLines: int, search: Search)
    : Option<string>
    requires i < |lines|
  {
    var remaining := Strip(Slice(lines[i], m.end, |lines[i]|));
    if field.multiline || remaining == [] then
      var parts := (if remaining != [] then [remaining] else [])
                   + ContinuationFrom(lines, i + 1, ContinuationEnd(i, maxValueLines, |lines|), fields, search);
      var value := Strip(Join(parts, " "));
      if value != [] then Some(value) else None
    else
      Some(remaining)
  }

  /** The first line, from line `i` on, where `pattern` matches and yields a value. */
  function ValueInLines(lines: seq<string>, pattern: string, i: nat, field: Field, fields: seq<Field>, maxValueLines: int, search: Search)
    : Option<string>
    decreases |lines| - i
  {
    if i >= |lines| then None
    else
      var v := LineValue(lines, pattern, i, field, fields, maxValueLines, search);
      if v.Some? then v else ValueInLines(lines, pattern, i + 1, field, fields, maxValueLines, search)
  }

  /** The value line `i` gives for `pattern`: none unless the pattern matches it. */
  function LineValue(lines: seq<string>, pattern: string, i: nat, field: Field, fields: seq<Field>, maxValueLines: int, search: Search)
    : Option<string>
    requires i < |lines|
  {
    var m := search(pattern, lines[i]);
    if m.Some? then ValueAt(lines, i, m.value, field, fields, maxValueLines, search) else None
  }

  /** The first pattern, from pattern `k` on, that yields a value. */
  function ValueFromPatterns(lines: seq<string>, field: Field, k: nat, fields: seq<Field>, maxValueLines: int, search: Search)
    : Option<string>
    decreases |field.patterns| - k
  {
    if k >= |field.patterns| then None
    else
      var v := ValueInLines(lines, field.patterns[k], 0, field, fields, maxValueLines, search);
      if v.Some? then v else ValueFromPatterns(lines, field, k + 1, fields, maxValueLines, search)
  }

  /** The value of a field, as a specification. */
  function FieldValue(lines: seq<string>, field: Field, fields: seq<Field>, maxValueLines: int, search: Search): Option<string> {
    ValueFromPatterns(lines, field, 0, fields, maxValueLines, search)
  }

  /** A value taken on a key line: the stripped rest of the line when the field
      is single-line and the rest is not blank; otherwise the rest and the
      continuation lines joined by single spaces. Either way it is non-blank
      and stripped. */
  lemma ValueAtSpec(lines: seq<string>, i: nat, m: Span, field: Field, fields: seq<Field>, maxValueLines: int, search: Search)
    requires i < |lines|
    ensures var remaining := Strip(Slice(lines[i], m.end, |lines[i]|));
            var v := ValueAt(lines, i, m, field, fields, maxValueLines, search);
            && (!field.multiline && remaining != [] ==> v == Some(remaining))
            && (v.Some? ==> v.value != [] && Strip(v.value) == v.value)
  {
    var remaining := Strip(Slice(lines[i], m.end, |lines[i]|));
    StripIdempotent(Slice(lines[i], m.end, |lines[i]|));
    if field.multiline || remaining == [] {
      var parts := (if remaining != [] then [remaining] else [])
                   + ContinuationFrom(lines, i + 1, ContinuationEnd(i, maxValueLines, |lines|), fields, search);
      StripIdempotent(Join(parts, " "));
    }
  }

  lemma {:induction false} ValueInLinesStripped(lines: seq<string>, pattern: string, i: nat, field: Field, fields: seq<Field>, maxValueLines: int, search: Search)
    ensures var v := ValueInLines(lines, pattern, i, field, fields, maxValueLines, search);
            v.Some? ==> v.value != [] && Strip(v.value) == v.value
    decreases |lines| - i
  {
    if i < |lines| {
      var m := search(pattern, lines[i]);
      if m.Some? {
        ValueAtSpec(lines, i, m.value, field, fields, maxValueLines, search);
      }
      ValueInLinesStripped(lines, pattern, i + 1, field, fields, maxValueLines, search);
    }
  }

  lemma {:induction false} ValueFromPatternsStripped(lines: seq<string>, field: Field, k: nat, fields: seq<Field>, maxValueLines: int, search: Search)
    ensures var v := ValueFromPatterns(lines, field, k, fields, maxValueLines, search);
            v.Some? ==> v.value != [] && Strip(v.value) == v.value
    decreases |field.patterns| - k
  {
    if k < |field.patterns| {
      ValueInLinesStripped(lines, field.patterns[k], 0, field, fields, maxValueLines, search);
      ValueFromPatternsStripped(lines, field, k + 1, fields, maxValueLines, search);
    }
  }

  /** A found value is never blank (so `if value:` is the same test as "found"),
      and it carries no surrounding white space. */
  lemma FieldValueStripped(lines: seq<string>, field: Field, fields: seq<Field>, maxValueLines: int, search: Search)
    ensures var v := FieldValue(lines, field, fields, maxValueLines, search);
            v.Some? ==> v.value != [] && Strip(v.value) == v.value
  {
    ValueFromPatternsStripped(lines, field, 0, fields, maxValueLines, search);
  }

  /** No line from `lo` up to (not including) `hi` yields a value for `pattern`. */
  predicate NoLineValue(lines: seq<string>, pattern: string, lo: nat, hi: int, field: Field, fields: seq<Field>, maxValueLines: int, search: Search) {
    forall j :: lo <= j < hi && j < |lines| ==> LineValue(lines, pattern, j, field, fields, maxValueLines, search).None?
  }

  /** No pattern from `lo` up to (not including) `hi` yields a value on any line. */
  predicate NoPatternValue(lines: seq<string>, field: Field, lo: nat, hi: int, fields: seq<Field>, maxValueLines: int, search: Search) {
    forall k :: lo <= k < hi && k < |field.patterns| ==> NoLineValue(lines, field.patterns[k], 0, |lines|, field, fields, maxValueLines, search)
  }

  /** The line scan for one pattern returns the value of the first line, from
      `i` on, that yields one, and None exactly when no such line does. */
  lemma {:induction false} ValueInLinesSpec(lines: seq<string>, pattern: string, i: nat, field: Field, fields: seq<Field>, maxValueLines: int, search: Search)
    ensures var v := ValueInLines(lines, pattern, i, field, fields, maxValueLines, search);
            && (v.None? <==> NoLineValue(lines, pattern, i, |lines|, field, fields, maxValueLines, search))
            && (v.Some? ==> exists j :: i <= j < |lines| && LineValue(lines, pattern, j, field, fields, maxValueLines, search) == v
                                        && NoLineValue(lines, pattern, i, j, field, fields, maxValueLines, search))
    decreases |lines| - i
  {
    if i < |lines| {
      ValueInLinesSpec(lines, pattern, i + 1, field, fields, maxValueLines, search);
      var v := ValueInLines(lines, pattern, i, field, fields, maxValueLines, search);
      var here := LineValue(lines, pattern, i, field, fields, maxValueLines, search);
      if here.Some? {
        assert NoLineValue(lines, pattern, i, i, field, fields, maxValueLines, search);
      } else {
        if v.Some? {
          var j :| i + 1 <= j < |lines| && LineValue(lines, pattern, j, field, fields, maxValueLines, search) == v
                   && NoLineValue(lines, pattern, i + 1, j, field, fields, maxValueLines, search);
          assert NoLineValue(lines, pattern, i, j, field, fields, maxValueLines, search);
        }
      }
    }
  }

  /** The pattern scan returns the value of the first pattern, from `k` on,
      that yields one on some line, and None exactly when no pattern does. */
  lemma {:induction false} ValueFromPatternsSpec(lines: seq<string>, field: Field, k: nat, fields: seq<Field>, maxValueLines: int, search: Search)
    ensures var v := ValueFromPatterns(lines, field, k, fields, maxValueLines, search);
            && (v.None? <==> NoPatternValue(lines, field, k, |field.patterns|, fields, maxValueLines, search))
            && (v.Some? ==> exists q :: k <= q < |field.patterns|
                                        && v == ValueInLines(lines, field.patterns[q], 0, field, fields, maxValueLines, search)
                                        && NoPatternValue(lines, field, k, q, fields, maxValueLines, search))
    decreases |field.patterns| - k
  {
    if k < |field.patterns| {
      ValueFromPatternsSpec(lines, field, k + 1, fields, maxValueLines, search);
      ValueInLinesSpec(lines, field.patterns[k], 0, field, fields, maxValueLines, search);
      var v := ValueFromPatterns(lines, field, k, fields, maxValueLines, search);
      var here := ValueInLines(lines, field.patterns[k], 0, field, fields, maxValueLines, search);
      if here.Some? {
        assert NoPatternValue(lines, field, k, k, fields, maxValueLines, search);
      } else if v.Some? {
        var q :| k + 1 <= q < |field.patterns|
                 && v == ValueInLines(lines, field.patterns[q], 0, field, fields, maxValueLines, search)
                 && NoPatternValue(lines, field, k + 1, q, fields, maxValueLines, search);
        assert NoPatternValue(lines, field, k, q, fields, maxValueLines, search);
      }
    }
  }

  /** The search order of `_extract_field_value`: patterns in order, and for
      each pattern the lines in order. A found value is the value of some
      (pattern, line) pair, and every pair before it in that order yields
      none; the result is None exactly when no pair yields a value. */
  lemma FieldValueSpec(lines: seq<string>, field: Field, fields: seq<Field>, maxValueLines: int, search: Search)
    ensures var v := FieldValue(lines, field, fields, maxValueLines, search);
            && (v.None? <==> forall q, j :: 0 <= q < |field.patterns| && 0 <= j < |lines| ==>
                               LineValue(lines, field.patterns[q], j, field, fields, maxValueLines, search).None?)
            && (v.Some? ==> exists q, j :: 0 <= q < |field.patterns| && 0 <= j < |lines|
                              && LineValue(lines, field.patterns[q], j, field, fields, maxValueLines, search) == v
                              && (forall q', j' :: 0 <= q' < q && 0 <= j' < |lines| ==>
                                    LineValue(lines, field.patterns[q'], j', field, fields, maxValueLines, search).None?)
                              && (forall j' :: 0 <= j' < j ==>
                                    LineValue(lines, field.patterns[q], j', field, fields, maxValueLines, search).None?))
  {
    ValueFromPatternsSpec(lines, field, 0, fields, maxValueLines, search);
    var v := FieldValue(lines, field, fields, maxValueLines, search);
    if v.Some? {
      var q :| 0 <= q < |field.patterns|
               && v == ValueInLines(lines, field.patterns[q], 0, field, fields, maxValueLines, search)
               && NoPatternValue(lines, field, 0, q, fields, maxValueLines, search);
      ValueInLinesSpec(lines, field.patterns[q], 0, field, fields, maxValueLines, search);
      var j :| 0 <= j < |lines| && LineValue(lines, field.patterns[q], j, field, fields, maxValueLines, search) == v
               && NoLineValue(lines, field.patterns[q], 0, j, field, fields, maxValueLines, search);
      forall q', j' | 0 <= q' < q && 0 <= j' < |lines|
        ensures LineValue(lines, field.patterns[q'], j', field, fields, maxValueLines, search).None?
      {
        assert NoLineValue(lines, field.patterns[q'], 0, |lines|, field, fields, maxValueLines, search);
      }
    } else {
      forall q, j | 0 <= q < |field.patterns| && 0 <= j < |lines|
        ensures LineValue(lines, field.patterns[q], j, field, fields, maxValueLines, search).None?
      {
        assert NoLineValue(lines, field.patterns[q], 0, |lines|, field, fields, maxValueLines, search);
      }
    }
  }

  /** The continuation loop: `range(i + 1, min(i + max_value_lines + 1, len(lines)))`
      with its two `break`s. */
  method ContinuationLines(lines: seq<string>, start: nat, hi: int, fields: seq<Field>, search: Search) returns (collected: seq<string>)
    requires hi <= |lines|
    ensures collected == ContinuationFrom(lines, start, hi, fields, search)
  {
    collected := [];
    var j := start;
    while j < hi
      invariant start <= j
      invariant ContinuationFrom(lines, start, hi, fields, search) == collected + ContinuationFrom(lines, j, hi, fields, search)
      decreases hi - j
    {
      var nextLine := Strip(lines[j]);
      if nextLine == [] {
        break;
      }
      var isKey := IsFieldKey(nextLine, fields, search);
      if isKey {
        break;
      }
      collected := collected + [nextLine];
      j := j + 1;
    }
  }

  /** The line loop for one pattern. */
  method ValueForPattern(lines: seq<string>, pattern: string, field: Field, fields: seq<Field>, maxValueLines: int, search: Search)
    returns (value: Option<string>)
    ensures value == ValueInLines(lines, pattern, 0, field, fields, maxValueLines, search)
  {
    for i := 0 to |lines|
      invariant ValueInLines(lines, pattern, 0, field, fields, maxValueLines, search)
                == ValueInLines(lines, pattern, i, field, fields, maxValueLines, search)
    {
      var v := ValueOnLine(lines, pattern, i, field, fields, maxValueLines, search);
      if v.Some? {
        return v;
      }
    }
    return None;
  }

  /** The body of the line loop: match the key pattern on line `i` and read the
      value after it. */
  method ValueOnLine(lines: seq<string>, pattern: string, i: nat, field: Field, fields: seq<Field>, maxValueLines: int, search: Search)
    returns (value: Option<string>)
    requires i < |lines|
    ensures value == LineValue(lines, pattern, i, field, fields, maxValueLines, search)
  {
    var line := lines[i];
    var found := search(pattern, line);
    if found.None? {
      return None;
    }
    var m := found.value;
    var remaining := Strip(Slice(line, m.end, |line|));
    if field.multiline || remaining == [] {
      var valueLines := if remaining != [] then [remaining] else [];
      var more := ContinuationLines(lines, i + 1, ContinuationEnd(i, maxValueLines, |lines|), fields, search);
      valueLines := valueLines + more;
      var v := Strip(Join(valueLines, " "));
      if v != [] {
        return Some(v);
      }
      return None;
    } else {
      return Some(remaining);
    }
  }

  /** `_extract_field_value` (its warning is always None and is left out). */
  method ExtractFieldValue(lines: seq<string>, field: Field, allFields: seq<Field>, maxValueLines: int, search: Search)
    returns (value: Option<string>)
    ensures value == FieldValue(lines, field, allFields, maxValueLines, search)
  {
    for k := 0 to |field.patterns|
      invariant FieldValue(lines, field, allFields, maxValueLines, search)
                == ValueFromPatterns(lines, field, k, allFields, maxValueLines, search)
    {
      value := ValueForPattern(lines, field.patterns[k], field, allFields, maxValueLines, search);
      if value.Some? {
        return;
      }
    }
    return None;
  }

  // ---------------------------------------------------------------------------
  // `SequentialKeyParser.parse`
  // ---------------------------------------------------------------------------

  /** `data` and `warnings` after some of the fields. */
  datatype ScanState = ScanState(data: map<string, string>, warnings: seq<string>)

  /** The fields loop over `fs`, as a specification. */
  function SeqScan(lines: seq<string>, fs: seq<Field>, all: seq<Field>, maxValueLines: int, search: Search): ScanState {
    if fs == [] then ScanState(map[], [])
    else
      var st := SeqScan(lines, fs[..|fs| - 1], all, maxValueLines, search);
      var f := fs[|fs| - 1];
      match FieldValue(lines, f, all, maxValueLines, search)
      case Some(v) => ScanState(st.data[f.key := v], st.warnings)
      case None => if f.required then ScanState(st.data, st.warnings + [NotFoundWarning(f.key)]) else st
  }

  /** `SequentialKeyParser(max_value_lines).parse(text, fields)`, as a specification. */
  function SequentialParse(text: string, fields: seq<Field>, maxValueLines: int, search: Search): ParseResult {
    if text == [] then EmptyResult(fields)
    else
      var st := SeqScan(Split(text, '\n'), fields, fields, maxValueLines, search);
      ParseResult(st.data, MissingKeys(fields, st.data), st.warnings)
  }

  /** Every key of `data` is a field key. */
  lemma {:induction false} SeqScanKeys(lines: seq<string>, fs: seq<Field>, all: seq<Field>, maxValueLines: int, search: Search)
    ensures forall k :: k in SeqScan(lines, fs, all, maxValueLines, search).data ==> exists a :: 0 <= a < |fs| && fs[a].key == k
  {
    if fs != [] {
      var n := |fs| - 1;
      SeqScanKeys(lines, fs[..n], all, maxValueLines, search);
      var st := SeqScan(lines, fs, all, maxValueLines, search);
      forall k | k in st.data ensures exists a :: 0 <= a < |fs| && fs[a].key == k {
        if k != fs[n].key {
          var prev := SeqScan(lines, fs[..n], all, maxValueLines, search);
          assert k in prev.data;
          var a :| 0 <= a < n && fs[..n][a].key == k;
          assert fs[a] == fs[..n][a];
        }
      }
    }
  }

  /** With distinct keys, a field is in `data` exactly when it has a value, and
      with that value. */
  lemma {:induction false} SeqScanData(lines: seq<string>, fs: seq<Field>, all: seq<Field>, maxValueLines: int, search: Search, a: nat)
    requires DistinctKeys(fs) && a < |fs|
    ensures var st := SeqScan(lines, fs, all, maxValueLines, search);
            var v := FieldValue(lines, fs[a], all, maxValueLines, search);
            (fs[a].key in st.data <==> v.Some?) && (v.Some? ==> st.data[fs[a].key] == v.value)
  {
    var n := |fs| - 1;
    var prev := SeqScan(lines, fs[..n], all, maxValueLines, search);
    if a < n {
      assert DistinctKeys(fs[..n]) by {
        forall x, y | 0 <= x < y < n ensures fs[..n][x].key != fs[..n][y].key {
          assert fs[..n][x] == fs[x] && fs[..n][y] == fs[y];
        }
      }
      assert fs[..n][a] == fs[a];
      SeqScanData(lines, fs[..n], all, maxValueLines, search, a);
      assert fs[a].key != fs[n].key;
    } else {
      SeqScanKeys(lines, fs[..n], all, maxValueLines, search);
    }
  }

  /** With distinct keys, the warnings are one "not found" message per missing
      required field, in field order. */
  lemma {:induction false} SeqScanWarnings(lines: seq<string>, fs: seq<Field>, all: seq<Field>, maxValueLines: int, search: Search)
    requires DistinctKeys(fs)
    ensures var st := SeqScan(lines, fs, all, maxValueLines, search);
            var missing := MissingKeys(fs, st.data);
            st.warnings == seq(|missing|, k requires 0 <= k < |missing| => NotFoundWarning(missing[k]))
  {
    if fs != [] {
      var n := |fs| - 1;
      var f := fs[n];
      assert DistinctKeys(fs[..n]) by {
        forall x, y | 0 <= x < y < n ensures fs[..n][x].key != fs[..n][y].key {
          assert fs[..n][x] == fs[x] && fs[..n][y] == fs[y];
        }
      }
      SeqScanWarnings(lines, fs[..n], all, maxValueLines, search);
      SeqScanKeys(lines, fs[..n], all, maxValueLines, search);
      var prev := SeqScan(lines, fs[..n], all, maxValueLines, search);
      var st := SeqScan(lines, fs, all, maxValueLines, search);
      assert forall a :: 0 <= a < n ==> fs[..n][a].key != f.key by {
        forall a | 0 <= a < n ensures fs[..n][a].key != f.key {
          assert fs[..n][a] == fs[a];
        }
      }
      assert f.key !in prev.data;
      var pm := MissingKeys(fs[..n], prev.data);
      match FieldValue(lines, f, all, maxValueLines, search)
      case Some(v) =>
        MissingKeysFrame(fs[..n], prev.data, f.key, v);
      case None =>
        if f.required {
          assert MissingKeys(fs, st.data) == pm + [f.key];
        }
    }
  }

  /** The fields loop of `parse`. */
  method SequentialScan(lines: seq<string>, fields: seq<Field>, maxValueLines: int, search: Search) returns (st: ScanState)
    ensures st == SeqScan(lines, fields, fields, maxValueLines, search)
  {
    var data: map<string, string> := map[];
    var warnings: seq<string> := [];
    for i := 0 to |fields|
      invariant ScanState(data, warnings) == SeqScan(lines, fields[..i], fields, maxValueLines, search)
    {
      var field := fields[i];
      assert fields[..i + 1][..i] == fields[..i];
      var value := ExtractFieldValue(lines, field, fields, maxValueLines, search);
      if value.Some? {
        data := data[field.key := value.value];
      } else if field.required {
        warnings := warnings + [NotFoundWarning(field.key)];
      }
    }
    assert fields[..|fields|] == fields;
    st := ScanState(data, warnings);
  }

  /** `SequentialKeyParser.parse`. */
  method SequentialKeyParse(text: string, fields: seq<Field>, maxValueLines: int, search: Search) returns (r: ParseResult)
    ensures r == SequentialParse(text, fields, maxValueLines, search)
  {
    if text == [] {
      return EmptyResult(fields);
    }
    var lines := Split(text, '\n');
    var st := SequentialScan(lines, fields, maxValueLines, search);
    var missing := MissingKeys(fields, st.data);
    return ParseResult(st.data, missing, st.warnings);
  }

  // ---------------------------------------------------------------------------
  // `KeyValuePairParser.parse`
  // ---------------------------------------------------------------------------

  /** Some pattern of the field matches the label. */
  predicate LabelMatches(f: Field, labelText: string, search: Search) {
    exists b :: 0 <= b < |f.patterns| && search(f.patterns[b], labelText).Some?
  }

  /** One pair applied to the fields `fs`: each field whose patterns recognise the
      labelText receives the value. */
  function AssignPair(data: map<string, string>, fs: seq<Field>, labelText: string, value: string, search: Search): map<string, string> {
    if fs == [] then data
    else
      var d := AssignPair(data, fs[..|fs| - 1], labelText, value, search);
      var f := fs[|fs| - 1];
      if LabelMatches(f, labelText, search) then d[f.key := value] else d
  }

  /** Some field with key `k` recognises the labelText. */
  predicate Hits(fs: seq<Field>, labelText: string, k: string, search: Search) {
    exists a :: 0 <= a < |fs| && fs[a].key == k && LabelMatches(fs[a], labelText, search)
  }

  /** The pairs in text order, labels and values stripped, as a specification. */
  function PairsData(pairs: seq<(string, string)>, fields: seq<Field>, search: Search): map<string, string> {
    if pairs == [] then map[]
    else
      var p := pairs[|pairs| - 1];
      AssignPair(PairsData(pairs[..|pairs| - 1], fields, search), fields, Strip(p.0), Strip(p.1), search)
  }

  /** `KeyValuePairParser().parse(text, fields)`, as a specification. */
  function KeyValueParse(text: string, fields: seq<Field>, findPairs: FindPairs, search: Search): ParseResult {
    if text == [] then EmptyResult(fields)
    else
      var data := PairsData(findPairs(text), fields, search);
      var missing := MissingKeys(fields, data);
      ParseResult(data, missing, if missing != [] then [MissingWarning(missing)] else [])
  }

  /** One pair sets exactly the keys of the fields that recognise its labelText. */
  lemma {:induction false} AssignPairSpec(data: map<string, string>, fs: seq<Field>, labelText: string, value: string, search: Search, k: string)
    ensures var d := AssignPair(data, fs, labelText, value, search);
            && (k in d <==> k in data || Hits(fs, labelText, k, search))
            && (Hits(fs, labelText, k, search) ==> d[k] == value)
            && (!Hits(fs, labelText, k, search) && k in data ==> d[k] == data[k])
  {
    if fs != [] {
      var n := |fs| - 1;
      AssignPairSpec(data, fs[..n], labelText, value, search, k);
      if Hits(fs[..n], labelText, k, search) {
        var a :| 0 <= a < n && fs[..n][a].key == k && LabelMatches(fs[..n][a], labelText, search);
        assert fs[a] == fs[..n][a];
      }
      if Hits(fs, labelText, k, search) && !(fs[n].key == k && LabelMatches(fs[n], labelText, search)) {
        var a :| 0 <= a < |fs| && fs[a].key == k && LabelMatches(fs[a], labelText, search);
        assert a < n && fs[..n][a] == fs[a];
      }
    }
  }

  /** Pair `i` is recognised by a field with key `k`. */
  predicate PairHits(pairs: seq<(string, string)>, i: int, fields: seq<Field>, k: string, search: Search)
    requires 0 <= i < |pairs|
  {
    Hits(fields, Strip(pairs[i].0), k, search)
  }

  /** A key gets a value exactly when some pair's label is recognised by a field
      with that key. */
  lemma {:induction false} PairsDataKeys(pairs: seq<(string, string)>, fields: seq<Field>, search: Search, k: string)
    ensures k in PairsData(pairs, fields, search) <==> exists i :: 0 <= i < |pairs| && PairHits(pairs, i, fields, k, search)
  {
    if pairs != [] {
      var n := |pairs| - 1;
      var p := pairs[n];
      var prev := PairsData(pairs[..n], fields, search);
      PairsDataKeys(pairs[..n], fields, search, k);
      AssignPairSpec(prev, fields, Strip(p.0), Strip(p.1), search, k);
      PairHitsLast(pairs, fields, search, k);
    }
  }

  /** A pair recognised for `k` is the last pair or one of the pairs before it. */
  lemma PairHitsLast(pairs: seq<(string, string)>, fields: seq<Field>, search: Search, k: string)
    requires pairs != []
    ensures var n := |pairs| - 1;
            (exists i :: 0 <= i < |pairs| && PairHits(pairs, i, fields, k, search))
            <==> (exists i :: 0 <= i < n && PairHits(pairs[..n], i, fields, k, search)) || Hits(fields, Strip(pairs[n].0), k, search)
  {
    var n := |pairs| - 1;
    forall i | 0 <= i < n
      ensures PairHits(pairs[..n], i, fields, k, search) == PairHits(pairs, i, fields, k, search)
    {
      assert pairs[..n][i] == pairs[i];
    }
    if exists i :: 0 <= i < |pairs| && PairHits(pairs, i, fields, k, search) {
      var i :| 0 <= i < |pairs| && PairHits(pairs, i, fields, k, search);
      if i < n {
        assert PairHits(pairs[..n], i, fields, k, search);
      }
    }
    if exists i :: 0 <= i < n && PairHits(pairs[..n], i, fields, k, search) {
      var i :| 0 <= i < n && PairHits(pairs[..n], i, fields, k, search);
      assert PairHits(pairs, i, fields, k, search);
    }
    if Hits(fields, Strip(pairs[n].0), k, search) {
      assert PairHits(pairs, n, fields, k, search);
    }
  }

  /** The value of a key is that of the last pair recognised for it: later
      pairs overwrite earlier ones. */
  lemma {:induction false} PairsDataLastWins(pairs: seq<(string, string)>, fields: seq<Field>, search: Search, k: string, i: nat)
    requires i < |pairs| && PairHits(pairs, i, fields, k, search)
    requires forall j :: i < j < |pairs| ==> !PairHits(pairs, j, fields, k, search)
    ensures var d := PairsData(pairs, fields, search);
            k in d && d[k] == Strip(pairs[i].1)
  {
    var n := |pairs| - 1;
    var p := pairs[n];
    var prev := PairsData(pairs[..n], fields, search);
    AssignPairSpec(prev, fields, Strip(p.0), Strip(p.1), search, k);
    if i < n {
      assert !Hits(fields, Strip(p.0), k, search) by {
        assert !PairHits(pairs, n, fields, k, search);
      }
      forall j | i < j < n ensures !PairHits(pairs[..n], j, fields, k, search) {
        assert pairs[..n][j] == pairs[j];
        assert !PairHits(pairs, j, fields, k, search);
      }
      assert pairs[..n][i] == pairs[i];
      PairsDataLastWins(pairs[..n], fields, search, k, i);
    }
  }

  /** The pattern loop with its `break`: does some pattern of the field match? */
  method MatchesLabel(f: Field, labelText: string, search: Search) returns (found: bool)
    ensures found == LabelMatches(f, labelText, search)
  {
    found := false;
    for b := 0 to |f.patterns|
      invariant !found
      invariant forall b' :: 0 <= b' < b ==> search(f.patterns[b'], labelText).None?
    {
      if search(f.patterns[b], labelText).Some? {
        found := true;
        break;
      }
    }
  }

  /** The field loop for one pair. */
  method AssignFields(data0: map<string, string>, fields: seq<Field>, labelText: string, value: string, search: Search)
    returns (data: map<string, string>)
    ensures data == AssignPair(data0, fields, labelText, value, search)
  {
    data := data0;
    for a := 0 to |fields|
      invariant data == AssignPair(data0, fields[..a], labelText, value, search)
    {
      assert fields[..a + 1][..a] == fields[..a];
      var matches := MatchesLabel(fields[a], labelText, search);
      if matches {
        data := data[fields[a].key := value];
      }
    }
    assert fields[..|fields|] == fields;
  }

  /** `KeyValuePairParser.parse`. */
  method KeyValuePairParse(text: string, fields: seq<Field>, findPairs: FindPairs, search: Search) returns (r: ParseResult)
    ensures r == KeyValueParse(text, fields, findPairs, search)
    ensures text != [] ==> (|r.warnings| == 1 <==> r.missingFields != []) && |r.warnings| <= 1
  {
    if text == [] {
      return EmptyResult(fields);
    }
    var data: map<string, string> := map[];
    var matches := findPairs(text);
    for i := 0 to |matches|
      invariant data == PairsData(matches[..i], fields, search)
    {
      assert matches[..i + 1][..i] == matches[..i];
      var (keyText, value) := matches[i];
      data := AssignFields(data, fields, Strip(keyText), Strip(value), search);
    }
    assert matches[..|matches|] == matches;
    var missing := MissingKeys(fields, data);
    var warnings := [];
    if missing != [] {
      warnings := warnings + [MissingWarning(missing)];
    }
    return ParseResult(data, missing, warnings);
  }

  // ---------------------------------------------------------------------------
  // `DataParser`
  // ---------------------------------------------------------------------------

  /** The two strategies: `SequentialKeyParser(max_value_lines)` and `KeyValuePairParser()`. */
  datatype Strategy = SequentialKeyParser(maxValueLines: int) | KeyValuePairParser

  /** `DataParser._default_fields()`. */
  const DefaultFields: seq<Field> := [
    Field("氏名", [@"氏名[：:\s]*", @"名前[：:\s]*", @"お名前[：:\s]*"], false, false),
    Field("件名", [@"件名[：:\s]*", @"タイトル[：:\s]*", @"表題[：:\s]*"], false, false),
    Field("日付", [@"日付[：:\s]*", @"作成日[：:\s]*", @"\d{4}[年/.-]\d{1,2}[月/.-]\d{1,2}"], false, false),
    Field("金額", [@"金額[：:\s]*", @"合計[：:\s]*", @"¥\s*[\d,]+", @"[0-9,]+円"], false, false),
    Field("住所", [@"住所[：:\s]*", @"所在地[：:\s]*"], false, true)
  ]

  /** What a parser with this strategy and these fields returns, as a specification. */
  function RunParse(strategy: Strategy, fields: seq<Field>, text: string, findPairs: FindPairs, search: Search): ParseResult {
    if text == [] then EmptyResult(fields)
    else
      match strategy
      case SequentialKeyParser(maxValueLines) => SequentialParse(text, fields, maxValueLines, search)
      case KeyValuePairParser => KeyValueParse(text, fields, findPairs, search)
  }

  /** Empty input gives no data, every required key as missing, and the single
      empty-input warning, whatever the entry point. */
  lemma EmptyTextResult(strategy: Strategy, fields: seq<Field>, findPairs: FindPairs, search: Search, maxValueLines: int)
    ensures var r := RunParse(strategy, fields, "", findPairs, search);
            && r == SequentialParse("", fields, maxValueLines, search)
            && r == KeyValueParse("", fields, findPairs, search)
            && r.data == map[] && r.missingFields == MissingKeys(fields, map[]) && r.warnings == [EmptyTextWarning]
  {
    MissingKeysOfEmpty(fields);
  }

  /** The default fields are distinct and optional, and only `住所` spans lines;
      so with them nothing is ever reported missing. */
  lemma DefaultFieldsShape(data: map<string, string>)
    ensures DistinctKeys(DefaultFields)
    ensures forall a :: 0 <= a < |DefaultFields| ==> !DefaultFields[a].required
    ensures forall a :: 0 <= a < |DefaultFields| ==> (DefaultFields[a].multiline <==> DefaultFields[a].key == "住所")
    ensures MissingKeys(DefaultFields, data) == [] && RequiredKeys(DefaultFields) == []
  {
    assert forall a :: 0 <= a < |DefaultFields| ==> !DefaultFields[a].required;
    NoRequiredNoMissing(DefaultFields, data);
  }

  lemma {:induction false} NoRequiredNoMissing(fields: seq<Field>, data: map<string, string>)
    requires forall a :: 0 <= a < |fields| ==> !fields[a].required
    ensures MissingKeys(fields, data) == [] && RequiredKeys(fields) == []
  {
    if fields != [] {
      var n := |fields| - 1;
      assert forall a :: 0 <= a < n ==> fields[..n][a] == fields[a];
      NoRequiredNoMissing(fields[..n], data);
    }
  }

  /** The façade: a strategy and a field list, both replaceable. */
  class DataParser {
    var strategy: Strategy
    var fields: seq<Field>

    /** `strategy or SequentialKeyParser()` and `fields or self._default_fields()`:
        a missing strategy means the sequential parser with its default of ten
        lines, and a missing or empty field list means the defaults. */
    constructor (strategy: Option<Strategy>, fields: Option<seq<Field>>)
      ensures this.strategy == (if strategy.Some? then strategy.value else SequentialKeyParser(10))
      ensures this.fields == (if fields.None? || fields.value == [] then DefaultFields else fields.value)
    {
      this.strategy := if strategy.Some? then strategy.value else SequentialKeyParser(10);
      this.fields := if fields.None? || fields.value == [] then DefaultFields else fields.value;
    }

    /** `parse`: the empty-input result, or the strategy's. */
    method Parse(ocrText: string, findPairs: FindPairs, search: Search) returns (r: ParseResult)
      ensures r == RunParse(strategy, fields, ocrText, findPairs, search)
    {
      if ocrText == [] {
        return EmptyResult(fields);
      }
      match strategy
      case SequentialKeyParser(maxValueLines) =>
        r := SequentialKeyParse(ocrText, fields, maxValueLines, search);
      case KeyValuePairParser =>
        r := KeyValuePairParse(ocrText, fields, findPairs, search);
    }

    /** `parse_fields`: the data of `parse`. */
    method ParseFields(ocrText: string, findPairs: FindPairs, search: Search) returns (data: map<string, string>)
      ensures data == RunParse(strategy, fields, ocrText, findPairs, search).data
    {
      var r := Parse(ocrText, findPairs, search);
      data := r.data;
    }

    method SetFields(fields: seq<Field>)
      modifies this
      ensures this.fields == fields && strategy == old(strategy)
    {
      this.fields := fields;
    }

    method SetStrategy(strategy: Strategy)
      modifies this
      ensures this.strategy == strategy && fields == old(fields)
    {
      this.strategy := strategy;
    }
  }
}
