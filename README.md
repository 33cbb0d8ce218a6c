# OCR field extraction, modelled in Dafny

This project models the field-extraction engine of the OCR project in Dafny.
The engine turns the output of a document-analysis service, or the plain text
of an OCR engine, into named fields. The model covers:

- **Token-based extraction.**
  - `FormFieldExtractor` (module `FormProcessor`) finds a keyword token and
    takes the first valid token of a small window beside it. It also buckets
    tokens into rectangular areas, collects per-token date, number and phone
    hits, and assembles the final summary.
  - `SmartFieldExtractor` (module `SmartExtractor`) matches patterns over the
    whole text and gives each match a heuristic confidence and the union box
    of the tokens it overlaps. It adds context-clue candidates at 0.8 times
    the neighbour's confidence, keeps the first candidate of every text, ranks
    by confidence and keeps the top five.
  - Both share one token normalisation (`Layout`), one conversion from
    vertices to a box with its centre (`Geometry`) and two validator tables
    (`Validators`).
- **Flat-text parsing** (module `DataParsing`).
  - `SequentialKeyParser` finds a key line and takes its remainder, or the
    following lines up to a blank line, another key line or a line cap.
  - `KeyValuePairParser` reads `label: value` pairs; a later pair wins.
  - The `DataParser` façade holds a strategy and a field list.
- **Smaller pieces beside the engine.**
  - The form-parser response flattening (`FormParsing`): layout text, form
    fields per page, entity groups and the combined output.
  - The text and structure helpers of the document processor
    (`DocumentProcessing`).
  - The descending luminance-threshold search and the grey-scale dispatch of
    the preprocessor (`Preprocessing`).
  - The natural-sort key of page images (`NaturalSort`).

Python's insertion-ordered dictionaries are sequences of key/value pairs
(`Dicts`). Confidences and coordinates are `real`. The Python built-ins the
engine leans on (`strip`, clamped slicing, `in`, `join`, `split`, `lower`,
the `\d` class) are written out in `Common`.

Regular expressions that are not a single character class go through an
oracle, a function parameter:

- `Search` stands for `re.search`.
- `FindIter` stands for `re.finditer`.
- `FindPairs` stands for the key/value `findall`.

OpenCV's `cvtColor` and the contour/perspective steps are function parameters
too. Wherever the specification and the code differ, the model follows the
code.

Every loop of the source is a method. Each method is proved equal to a
specification function, and the lemmas state the promised properties of that
function. `_get_normalized_coordinates` appears in two extractors and
`_extract_coordinates_from_layout` in the form-parser module. They are the
same computation, modelled once as `Geometry.NormalizedBox`. Likewise
`_extract_token_info` and `_extract_tokens` share one model,
`Layout.ExtractTokens`, which keeps only the fields the two have in common:
the index (`index` or `token_id`), the text, the confidence, the start and end
positions (`start_pos`/`end_pos`, or `text_indices`) and the normalised box.

## Model

| member | source | states |
|---|---|---|
| Common.StripProperties | test_ocr_for_doc1/lib/data_parser.py:152 | `strip()` leaves no white space at either end and gives "" exactly when the text is all white space |
| Common.StripIdempotent | test_ocr_for_doc1/lib/data_parser.py:172 | stripping a stripped text changes nothing |
| Common.Slice | test_document_ai/lib/smart_field_extractor.py:157 | Python slicing clamps both indices to the text and gives "" when they cross, so it never fails |
| Common.Split | test_document_ai/lib/document_processor.py:27 | the pieces of a split hold no separator and join back to the text; the same split turns the parser's text into lines (test_ocr_for_doc1/lib/data_parser.py:106) |
| Common.SplitJoin | test_document_ai/lib/document_processor.py:27 | splitting a join of separator-free pieces gives the pieces back |
| Common.NatToStringInjective | test_document_ai/lib/form_parser_processor.py:144 | distinct indices format to distinct decimal strings |
| Common.DecimalValueOfNatToString | test_document_ai/lib/form_parser_processor.py:156 | a formatted index reads back as the same number |
| Geometry.NormalizedBox | test_document_ai/lib/form_processor.py:179-207 | no box when no vertex has an x or none has a y; otherwise min ≤ centre ≤ max on both axes, every coordinate lies within the box and every bound is some vertex's coordinate |
| Geometry.MeanBetween | test_document_ai/lib/smart_field_extractor.py:174-193 | the mean of a non-empty list lies between its minimum and its maximum |
| Geometry.MinMaxAttained | test_document_ai/lib/form_parser_processor.py:244-265 | the minimum and the maximum of a list are members of it |
| Layout.MakeToken | test_document_ai/lib/smart_field_extractor.py:153-170 | the token keeps its position, its text is the clamped slice of the full text, the start defaults to 0 and the end to the start, and its box is well formed |
| Layout.ExtractTokens | test_document_ai/lib/form_processor.py:137-177 | the loop yields exactly the token list of the specification |
| Layout.Tokens | test_document_ai/lib/smart_field_extractor.py:144-172 | one token per raw token with segments, built from that raw token, with strictly increasing original indices |
| Layout.TokensComplete | test_document_ai/lib/form_processor.py:150-153 | a raw token appears in the list if and only if it has text segments |
| Layout.TokenCount | test_document_ai/lib/form_processor.py:137-177 | the list is as long as the number of raw tokens with segments |
| Validators.AnyCharSpec | test_document_ai/lib/form_processor.py:425 | the left-to-right scan for one character of a class succeeds exactly when some character of the text is in the class |
| Validators.HasRunSpec | test_document_ai/lib/smart_field_extractor.py:311 | the scan that counts the current run succeeds exactly when some `n` consecutive characters of the text are all in the class |
| Validators.RunFromSpec | test_document_ai/lib/form_processor.py:417 | with a run of `cur < n` class characters carried in, the scan succeeds exactly when the next `n - cur` characters complete it or a whole run lies inside the rest |
| Validators.SmartValidSpec | test_document_ai/lib/smart_field_extractor.py:298-319 | on the stripped text, exactly: 氏名 needs two consecutive name characters, 金額 a digit or comma, 住所 at least 3 characters and a kanji, 電話番号 a run of 8 phone characters, 日付 a date character, メールアドレス '@' or '＠', 会社名 at least 2 characters; blank is never valid and an unknown name accepts any non-blank text |
| Validators.SmartCheckSpec | test_document_ai/lib/smart_field_extractor.py:304-319 | the same per-name if-and-only-if rules on an already stripped text |
| Validators.FormValidSpec | test_document_ai/lib/form_processor.py:401-447 | on the stripped text, exactly: person_name needs two consecutive name characters, amount a digit or separator, address a marker or at least 4 characters, phone a phone character and at least 8 characters, date a date character, company a marker or at least 3 characters, department a marker or at least 2 characters, email both '@' and '.', any other type at least 2 characters; blank is never valid |
| Validators.FormCheckSpec | test_document_ai/lib/form_processor.py:415-447 | the same per-type if-and-only-if rules on an already stripped text |
| Validators.ValidatorsIgnoreSurroundingSpace | test_document_ai/lib/form_processor.py:413 | both validators give the same answer with or without surrounding white space |
| Ranking.FirstMax | test_document_ai/lib/form_processor.py:352 | `max` by confidence picks the first element of maximal confidence |
| Ranking.SortByKeyDesc | test_document_ai/lib/smart_field_extractor.py:227 | the in-place sort yields the specification's stable descending sort |
| Ranking.SortDescStable | test_document_ai/lib/smart_field_extractor.py:227 | the sort is stable: for every confidence value, the candidates with that confidence come out in their input order |
| Ranking.SortDescSorted | test_document_ai/lib/smart_field_extractor.py:227 | the sorted list is non-increasing in the key |
| Ranking.SortDescPermutation | test_document_ai/lib/smart_field_extractor.py:227 | the sorted list is a permutation of its input |
| Ranking.SortDescHead | test_document_ai/lib/smart_field_extractor.py:227-232 | the head of the sorted list is the first element of maximal key |
| Ranking.InsertSorted | test_document_ai/lib/smart_field_extractor.py:227 | inserting into a sorted list keeps it sorted |
| Dicts.Collect | test_document_ai/lib/smart_field_extractor.py:118-125 | a dictionary built from definitions has at most one entry per definition |
| Dicts.CollectKeys | test_document_ai/lib/form_processor.py:283-286 | every key of the built dictionary is a definition's key |
| Dicts.CollectAbsent | test_document_ai/lib/form_processor.py:283-286 | with distinct keys, a definition whose search fails has no entry |
| Dicts.CollectPresent | test_document_ai/lib/smart_field_extractor.py:121-125 | a definition whose search succeeds has an entry holding its result |
| Dicts.CollectValues | test_document_ai/lib/form_processor.py:260-265 | every entry holds a result the search produced for its definition |
| Dicts.LookupFound | test_document_ai/lib/form_parser_processor.py:145 | a key is found exactly when it is one of the dictionary's keys |
| Dicts.PutLookup | test_document_ai/lib/form_parser_processor.py:145 | after an assignment the key reads the new value and every other key reads as before |
| Dicts.PutKeys | test_document_ai/lib/form_parser_processor.py:145 | an assignment keeps the key order and adds a new key at the end |
| Dicts.PutUnique | test_document_ai/lib/form_parser_processor.py:156 | an assignment keeps the keys unique |
| Dicts.PutTotalSize | test_document_ai/lib/form_parser_processor.py:156 | an assignment replaces the list stored under the key, so the total size changes by the difference |
| SmartExtractor.PatternConfidence | test_document_ai/lib/smart_field_extractor.py:321-337 | the confidence lies in [0.7, 1.0], which is inside the [0.1, 1.0] clamp; it is at least 0.95 for texts of 10 or more characters and at most 0.78 for texts of at most 2; with no `\d{` and no `[` in the pattern it is 0.95, 0.7 or 0.9 by length |
| SmartExtractor.CalculatePatternConfidence | test_document_ai/lib/smart_field_extractor.py:321-337 | the accumulator and clamp compute the specified confidence |
| SmartExtractor.Selected | test_document_ai/lib/smart_field_extractor.py:245-248 | for well-ordered bounds, a token is selected exactly when its span overlaps or touches the match span, endpoints included |
| SmartExtractor.SelectedTokens | test_document_ai/lib/smart_field_extractor.py:241-249 | exactly the tokens that overlap or touch the span, in order |
| SmartExtractor.UnionBox | test_document_ai/lib/smart_field_extractor.py:255-271 | the union box holds every box, each bound is attained by one of them, its centre is the midpoint, and it is well formed when the boxes are |
| SmartExtractor.SpanBoxProperties | test_document_ai/lib/smart_field_extractor.py:239-271 | no box exactly when no selected token has coordinates; otherwise the box holds every selected token's box and is well formed |
| SmartExtractor.FindCoordinatesForTextSpan | test_document_ai/lib/smart_field_extractor.py:239-271 | the nested loops compute the span box of the specification |
| SmartExtractor.FindContextBasedValues | test_document_ai/lib/smart_field_extractor.py:273-296 | the loops compute the context candidates of the specification |
| SmartExtractor.NeighbourValues | test_document_ai/lib/smart_field_extractor.py:284-294 | the inner loop yields the candidates from one clue hit |
| SmartExtractor.NeighboursSound | test_document_ai/lib/smart_field_extractor.py:281-294 | each candidate from one hit is a valid neighbour other than the hit, with the penalised confidence |
| SmartExtractor.NeighboursComplete | test_document_ai/lib/smart_field_extractor.py:281-294 | every valid neighbour in the window yields a candidate |
| SmartExtractor.ContextValuesSound | test_document_ai/lib/smart_field_extractor.py:277-294 | every candidate comes from a clue token i and a valid neighbour j in [max(0,i-5), min(n,i+6)) with j ≠ i |
| SmartExtractor.ContextValuesComplete | test_document_ai/lib/smart_field_extractor.py:277-294 | every such clue token and valid neighbour yields its candidate |
| SmartExtractor.MatchCandidates | test_document_ai/lib/smart_field_extractor.py:206-218 | one pattern-match candidate per match, tagged with its pattern |
| SmartExtractor.PatternCandidates | test_document_ai/lib/smart_field_extractor.py:204-218 | every pattern candidate is tagged with one of the field's patterns |
| SmartExtractor.ClueCandidates | test_document_ai/lib/smart_field_extractor.py:221-223 | every context candidate is tagged with one of the field's clues |
| SmartExtractor.PatternMatchValues | test_document_ai/lib/smart_field_extractor.py:204-218 | the pattern loops compute the pattern candidates of the specification |
| SmartExtractor.ClueValues | test_document_ai/lib/smart_field_extractor.py:221-223 | the clue loop computes the clue candidates of the specification |
| SmartExtractor.Dedup | test_document_ai/lib/smart_field_extractor.py:339-350 | de-duplication never lengthens the list |
| SmartExtractor.DedupValueSet | test_document_ai/lib/smart_field_extractor.py:339-350 | every input text is still present and no new text appears |
| SmartExtractor.DedupDistinct | test_document_ai/lib/smart_field_extractor.py:339-350 | the surviving texts are pairwise distinct |
| SmartExtractor.DedupKeepsFirstOccurrences | test_document_ai/lib/smart_field_extractor.py:339-350 | the result is the subsequence of the first occurrences of each text, in input order |
| SmartExtractor.DedupIdempotent | test_document_ai/lib/smart_field_extractor.py:339-350 | applying de-duplication twice equals applying it once |
| SmartExtractor.DedupOfDistinct | test_document_ai/lib/smart_field_extractor.py:339-350 | a list with distinct texts is unchanged |
| SmartExtractor.DedupPrefersEarlier | test_document_ai/lib/smart_field_extractor.py:339-350 | on a collision between an earlier and a later part, the earlier part's entry survives |
| SmartExtractor.DeduplicateValues | test_document_ai/lib/smart_field_extractor.py:339-350 | the seen-set loop computes the de-duplication of the specification |
| SmartExtractor.PatternMatchWinsCollisions | test_document_ai/lib/smart_field_extractor.py:204-226 | a surviving value whose text some pattern match produced is the pattern-match entry, whatever the confidences |
| SmartExtractor.SummarizeProperties | test_document_ai/lib/smart_field_extractor.py:226-237 | None exactly when nothing survives; otherwise the count is the number of distinct texts (uncapped), at most five candidates in non-increasing confidence, and the best is the first listed, the first of maximal confidence and at least as confident as every survivor |
| SmartExtractor.ExtractFieldByPatterns | test_document_ai/lib/smart_field_extractor.py:195-237 | the method computes the per-field result of the specification |
| SmartExtractor.RegistryNamesDistinct | test_document_ai/lib/smart_field_extractor.py:22-92 | the field names of the pattern registry are pairwise distinct |
| SmartExtractor.ExtractAllFields | test_document_ai/lib/smart_field_extractor.py:118-125 | the field loop computes the field dictionary of the specification |
| SmartExtractor.ExtractSmartFields | test_document_ai/lib/smart_field_extractor.py:94-142 | the error map exactly when there are no pages; otherwise the counts of pages, characters and tokens of the first page, the field dictionary, and statistics whose count and type list are those of that dictionary |
| FormProcessor.WindowBounds | test_document_ai/lib/form_processor.py:372-383 | the forward window is [i+1, min(n,i+5)), at most 4 tokens; the reverse window is [max(0,i-5), i), at most 5 tokens; neither holds the keyword |
| FormProcessor.FirstWhereSpec | test_document_ai/lib/form_processor.py:385-397 | the result is the first index of the range whose token passes the test (the window scan tests for a non-blank, valid stripped text), or none when no index does |
| FormProcessor.ValueFromContextSpec | test_document_ai/lib/form_processor.py:357-399 | the value is the stripped text, confidence and box of the first usable token of the window in ascending order, so the reverse search yields the earliest, not the nearest |
| FormProcessor.FoundValueValid | test_document_ai/lib/form_processor.py:385-397 | a found value is non-empty, stripped and valid for its type |
| FormProcessor.ExtractFieldValueFromContext | test_document_ai/lib/form_processor.py:357-399 | the scan computes the window value of the specification |
| FormProcessor.KeywordHitsAt | test_document_ai/lib/form_processor.py:313-327 | a token yields at most one candidate per keyword |
| FormProcessor.KeywordHits | test_document_ai/lib/form_processor.py:313-327 | the keyword loop over one token computes its candidates |
| FormProcessor.AddIfNewExtends | test_document_ai/lib/form_processor.py:336-345 | a context candidate is appended only when its value is new, and the list before it is kept |
| FormProcessor.ClueScanExtends | test_document_ai/lib/form_processor.py:329-345 | one context keyword's scan only appends, and only values not collected before |
| FormProcessor.ContextScanExtends | test_document_ai/lib/form_processor.py:329-345 | the context scan only appends, and only values not collected before |
| FormProcessor.ClueHits | test_document_ai/lib/form_processor.py:330-345 | the loop for one context keyword computes its scan |
| FormProcessor.FoundValuesShape | test_document_ai/lib/form_processor.py:310-345 | keyword candidates come first, appended without de-duplication, and every later context candidate has a value not seen before it |
| FormProcessor.FoundValuesValid | test_document_ai/lib/form_processor.py:310-345 | every collected value is non-empty, stripped and valid for the field type |
| FormProcessor.SingleFieldProperties | test_document_ai/lib/form_processor.py:347-355 | None exactly when nothing was collected; otherwise all candidates, found_count equal to their number, and as best the first candidate of maximal confidence |
| FormProcessor.ExtractSingleField | test_document_ai/lib/form_processor.py:290-355 | the loops compute the single-field result of the specification |
| FormProcessor.ExtractStructuredFormFields | test_document_ai/lib/form_processor.py:269-288 | the field loop computes the structured-field dictionary of the specification |
| FormProcessor.CombinedText | test_document_ai/lib/form_processor.py:263 | the combined text is as long as the tokens' texts together |
| FormProcessor.AreaResultSpec | test_document_ai/lib/form_processor.py:243-265 | an area has an entry exactly when some token has coordinates and its centre lies in the closed rectangle; the entry holds exactly those tokens and their concatenated text |
| FormProcessor.TokensInArea | test_document_ai/lib/form_processor.py:246-258 | the token loop collects the tokens of the area |
| FormProcessor.ExtractCoordinateBasedFields | test_document_ai/lib/form_processor.py:236-267 | the area loop computes the area dictionary of the specification |
| FormProcessor.DateHits | test_document_ai/lib/form_processor.py:482-489 | each date entry records a date pattern that matches the token's text |
| FormProcessor.PhoneHits | test_document_ai/lib/form_processor.py:492-500 | each phone entry holds `match.group()` of one of the phone patterns on its token's text, of at least four characters |
| FormProcessor.NumberHits | test_document_ai/lib/form_processor.py:503-512 | each number entry records a number pattern that matches, together with its matched text |
| FormProcessor.PatternHits | test_document_ai/lib/form_processor.py:449-514 | at most two dates, two phones and three numbers per token |
| FormProcessor.PatternHitsSound | test_document_ai/lib/form_processor.py:478-512 | every bucketed entry came from a match of its pattern on its token |
| FormProcessor.TokenPatternHits | test_document_ai/lib/form_processor.py:478-512 | the per-token pattern loops compute the three hit lists |
| FormProcessor.ExtractPatternBasedFields | test_document_ai/lib/form_processor.py:449-514 | the token loop computes the pattern buckets of the specification |
| FormProcessor.ExtractFields | test_document_ai/lib/form_processor.py:209-234 | the three extractions are combined as specified |
| FormProcessor.ContextTokensWindow | test_document_ai/lib/form_processor.py:516-522 | the context is the contiguous slice [max(0,c-r), min(n,c+r+1)), at most 2r+1 tokens, with the centre token in it |
| FormProcessor.OthersSpec | test_document_ai/lib/form_processor.py:552-560 | the other candidates are exactly the values that differ from the best one |
| FormProcessor.BucketSpec | test_document_ai/lib/form_processor.py:563-574 | a bucket is absent exactly when it has no items, and otherwise keeps its first five items |
| FormProcessor.FinalStructuredJsonProperties | test_document_ai/lib/form_processor.py:524-590 | one entry per structured field with its best value and count; other candidates exactly when the count exceeds one; each summary's value, confidence, detection tag and coordinates are the best candidate's, and its other candidates are those differing from the best; statistics equal to the lengths of the emitted map and the capped lists |
| FormProcessor.FormFieldExtractor.constructor | test_document_ai/lib/form_processor.py:18-27 | the given definitions, or the default ones, and no page size yet |
| FormProcessor.FormFieldExtractor.ProcessDocumentJson | test_document_ai/lib/form_processor.py:89-135 | the error map and unchanged state when there are no pages; otherwise the first page's size (default 1.0) is stored and returned with the extracted fields and tokens |
| DataParsing.MissingKeysSpec | test_ocr_for_doc1/lib/data_parser.py:121 | a key is missing exactly when it belongs to a required field and is absent from the data |
| DataParsing.MissingKeysOfEmpty | test_ocr_for_doc1/lib/data_parser.py:95-100 | with no data, the missing keys are the required keys in definition order |
| DataParsing.MissingKeysFrame | test_ocr_for_doc1/lib/data_parser.py:121 | setting a key that no field has leaves the missing keys unchanged |
| DataParsing.IsFieldKey | test_ocr_for_doc1/lib/data_parser.py:180-195 | a line is a key line exactly when some pattern of some field matches it |
| DataParsing.ContinuationSpec | test_ocr_for_doc1/lib/data_parser.py:159-170 | the continuation takes the stripped, non-blank, non-key lines from the next line up to the cap, and stops at the first blank or key line |
| DataParsing.ContinuationLines | test_ocr_for_doc1/lib/data_parser.py:159-170 | the loop collects the continuation of the specification |
| DataParsing.ValueAtSpec | test_ocr_for_doc1/lib/data_parser.py:152-176 | for a single-line field with a non-blank remainder the value is that stripped remainder; any value is non-blank and stripped |
| DataParsing.ValueInLinesStripped | test_ocr_for_doc1/lib/data_parser.py:149-176 | a value found for one pattern is non-blank and stripped |
| DataParsing.ValueFromPatternsStripped | test_ocr_for_doc1/lib/data_parser.py:147-178 | a value found from a later pattern is non-blank and stripped |
| DataParsing.FieldValueStripped | test_ocr_for_doc1/lib/data_parser.py:129-178 | every value the parser takes is non-blank and stripped |
| DataParsing.ValueForPattern | test_ocr_for_doc1/lib/data_parser.py:148-176 | the line loop for one pattern computes its value |
| DataParsing.ValueInLinesSpec | test_ocr_for_doc1/lib/data_parser.py:148-176 | the line scan returns the value of the first line that yields one, and None exactly when no line does |
| DataParsing.ValueFromPatternsSpec | test_ocr_for_doc1/lib/data_parser.py:147-178 | the pattern scan returns the first pattern's value, and None exactly when no pattern yields one on any line |
| DataParsing.FieldValueSpec | test_ocr_for_doc1/lib/data_parser.py:146-178 | a found value comes from some (pattern, line) pair and every pair before it, patterns first and lines second, yields none; None exactly when no pair yields a value |
| DataParsing.ExtractFieldValue | test_ocr_for_doc1/lib/data_parser.py:129-178 | the pattern and line loops with early returns compute the field value of the specification |
| DataParsing.SeqScanKeys | test_ocr_for_doc1/lib/data_parser.py:109-118 | every key of the data is a field key |
| DataParsing.SeqScanData | test_ocr_for_doc1/lib/data_parser.py:109-118 | with distinct keys, a field is in the data exactly when its value was found, and then holds that value |
| DataParsing.SeqScanWarnings | test_ocr_for_doc1/lib/data_parser.py:114-115 | with distinct keys, there is one "not found" warning per missing required key, in definition order |
| DataParsing.SequentialScan | test_ocr_for_doc1/lib/data_parser.py:106-118 | the field loop computes the data and warnings of the specification |
| DataParsing.SequentialKeyParse | test_ocr_for_doc1/lib/data_parser.py:84-127 | the parse computes the sequential result of the specification |
| DataParsing.AssignPairSpec | test_ocr_for_doc1/lib/data_parser.py:236-241 | one pair sets exactly the fields whose pattern matches its stripped label, to the stripped value, and leaves every other key as it was |
| DataParsing.PairsDataKeys | test_ocr_for_doc1/lib/data_parser.py:230-241 | a key is in the data exactly when some pair's label matches one of its field's patterns |
| DataParsing.PairsDataLastWins | test_ocr_for_doc1/lib/data_parser.py:230-241 | a key holds the stripped value of the last pair that matched it |
| DataParsing.MatchesLabel | test_ocr_for_doc1/lib/data_parser.py:238-241 | the pattern loop finds a match exactly when some pattern matches the label |
| DataParsing.AssignFields | test_ocr_for_doc1/lib/data_parser.py:236-241 | the field loop computes one pair's assignment |
| DataParsing.KeyValuePairParse | test_ocr_for_doc1/lib/data_parser.py:208-253 | the parse computes the key/value result of the specification, and for non-empty text there is exactly one warning exactly when some required field is missing |
| DataParsing.EmptyTextResult | test_ocr_for_doc1/lib/data_parser.py:95-100 | for empty text both parsers and the façade give no data, the required keys as missing and the single empty-input warning |
| DataParsing.DefaultFieldsShape | test_ocr_for_doc1/lib/data_parser.py:330-364 | the five default fields have distinct keys, none is required and only 住所 is multi-line, so nothing is ever missing |
| DataParsing.NoRequiredNoMissing | test_ocr_for_doc1/lib/data_parser.py:121 | with no required field nothing is missing |
| DataParsing.DataParser.constructor | test_ocr_for_doc1/lib/data_parser.py:266-277 | the strategy defaults to a sequential parser with a cap of 10; an absent or empty field list falls back to the defaults |
| DataParsing.DataParser.Parse | test_ocr_for_doc1/lib/data_parser.py:292-309 | empty text gives the empty result; otherwise the stored strategy parses with the stored fields |
| DataParsing.DataParser.ParseFields | test_ocr_for_doc1/lib/data_parser.py:279-290 | the data part of the parse |
| DataParsing.DataParser.SetFields | test_ocr_for_doc1/lib/data_parser.py:311-318 | the field list is replaced wholesale and the strategy is kept |
| DataParsing.DataParser.SetStrategy | test_ocr_for_doc1/lib/data_parser.py:320-327 | the strategy is replaced wholesale and the field list is kept |
| FormParsing.SegmentSlices | test_document_ai/lib/form_parser_processor.py:233-237 | one clamped slice per segment |
| FormParsing.TextPartsSpec | test_document_ai/lib/form_parser_processor.py:236-239 | the kept parts are non-empty and stripped, and there are none exactly when every slice is blank |
| FormParsing.LayoutTextSpec | test_document_ai/lib/form_parser_processor.py:224-241 | the text is stripped, empty exactly when every segment's slice is blank, and a single segment gives its stripped slice |
| FormParsing.ExtractTextFromLayout | test_document_ai/lib/form_parser_processor.py:224-241 | the segment loop computes the layout text of the specification |
| FormParsing.Entries | test_document_ai/lib/form_parser_processor.py:131-152 | one entry per form field |
| FormParsing.KeyedKeys | test_document_ai/lib/form_parser_processor.py:131-153 | a key is present exactly when some field not blank in both name and value maps to it |
| FormParsing.KeyedLastWins | test_document_ai/lib/form_parser_processor.py:144-153 | a key holds the last field that maps to it |
| FormParsing.KeyedShape | test_document_ai/lib/form_parser_processor.py:131-153 | keys are unique and there are no more entries than fields |
| FormParsing.PageKeyInjective | test_document_ai/lib/form_parser_processor.py:156 | distinct pages have distinct keys |
| FormParsing.PageDicts | test_document_ai/lib/form_parser_processor.py:126-155 | one dictionary per page |
| FormParsing.PagesOfSpec | test_document_ai/lib/form_parser_processor.py:155-158 | keys are unique, a page with fields is under its own key and a page without is absent, every key is some page's key, and the entries sum to the pages' sizes |
| FormParsing.PageDictsSize | test_document_ai/lib/form_parser_processor.py:126-158 | there are no more entries than form fields |
| FormParsing.CountsSum | test_document_ai/lib/form_parser_processor.py:160-168 | the per-page counts sum to the total and are listed in page order |
| FormParsing.ExtractPageFields | test_document_ai/lib/form_parser_processor.py:131-153 | the field loop of one page computes its dictionary |
| FormParsing.ExtractFormFieldsFromResponse | test_document_ai/lib/form_parser_processor.py:103-170 | the loops compute the form-field output of the specification; the total is the sum of the per-page counts and at most the number of form fields |
| FormParsing.GroupsLookup | test_document_ai/lib/form_parser_processor.py:192-207 | a type's group holds exactly the entities of that type in input order, and a type without entities has no group |
| FormParsing.GroupsShape | test_document_ai/lib/form_parser_processor.py:192-207 | the groups are keyed in first-appearance order, keys are unique, and together they hold every entity once |
| FormParsing.FirstTypesSpec | test_document_ai/lib/form_parser_processor.py:192-207 | the type list holds each entity type exactly once |
| FormParsing.ExtractEntitiesFromResponse | test_document_ai/lib/form_parser_processor.py:173-221 | the loop computes the entity output of the specification; the total counts every entity and the type list is in first-appearance order |
| FormParsing.CombinedOutputSpec | test_document_ai/lib/form_parser_processor.py:268-298 | form parts exactly when there are pages, with a consistent total; entity statistics exactly when there are entities; the groups as the entity extraction made them |
| DocumentProcessing.FullText | test_document_ai/lib/document_processor.py:78-88 | the text, with "" for an unset text |
| DocumentProcessing.SegmentPartSpec | test_document_ai/lib/document_processor.py:109-111 | start defaults to 0 and an end of 0 means the end of the text; the part is the clamped slice |
| DocumentProcessing.SegmentParts | test_document_ai/lib/document_processor.py:106-112 | one part per segment |
| DocumentProcessing.ContiguousSegmentsText | test_document_ai/lib/document_processor.py:108-115 | the text of an element whose segments are set, in range and laid end to end is exactly the stretch of the text they cover |
| DocumentProcessing.PageTextsCount | test_document_ai/lib/document_processor.py:104-117 | a page gives at most one text per element, and exactly one when every element has segments |
| DocumentProcessing.TextsCount | test_document_ai/lib/document_processor.py:91-117 | at most one text per element of the document, exactly one when all have segments |
| DocumentProcessing.ElementText | test_document_ai/lib/document_processor.py:106-112 | the segment loop concatenates the element's parts |
| DocumentProcessing.ElementTexts | test_document_ai/lib/document_processor.py:104-117 | the element loop of one page computes its texts |
| DocumentProcessing.ExtractTexts | test_document_ai/lib/document_processor.py:91-175 | the page loop computes the texts of one kind |
| DocumentProcessing.ExtractBlocks | test_document_ai/lib/document_processor.py:91-117 | the block texts, at most one per block |
| DocumentProcessing.ExtractParagraphs | test_document_ai/lib/document_processor.py:120-146 | the paragraph texts, at most one per paragraph |
| DocumentProcessing.ExtractLines | test_document_ai/lib/document_processor.py:149-175 | the line texts, at most one per line |
| DocumentProcessing.GetDocumentStructureInfo | test_document_ai/lib/document_processor.py:178-210 | one detail per page numbered i+1, and each total is the sum of the per-page counts |
| DocumentProcessing.ProcessorNameComponents | test_document_ai/lib/document_processor.py:27 | the name splits back on '/' into its six components, so distinct ids give distinct names |
| DocumentProcessing.MimeType | test_document_ai/lib/document_processor.py:54-71 | a guessed type wins; otherwise the lower-cased suffix is looked up in the fixed table, with application/octet-stream for an unknown suffix |
| DocumentProcessing.MimeFallbackSpec | test_document_ai/lib/document_processor.py:58-69 | the fallback is one of the five types and ignores the suffix's case |
| DocumentProcessing.DocumentAIProcessor.constructor | test_document_ai/lib/document_processor.py:15-27 | the ids are stored and the processor name is formatted from them |
| Preprocessing.CountAbove | test_ocr_for_doc1/lib/preprocess.py:73 | no more pixels lie above a threshold than there are pixels |
| Preprocessing.CountAboveMonotone | test_ocr_for_doc1/lib/preprocess.py:73-77 | raising the threshold never lets more pixels above it |
| Preprocessing.SearchFromSpec | test_ocr_for_doc1/lib/preprocess.py:68-77 | from a starting point downwards, the result is min_th or a bright threshold in range, and nothing tried before it was bright |
| Preprocessing.ThresholdSpec | test_ocr_for_doc1/lib/preprocess.py:68-77 | in [min_th, max_th] when that range is non-empty, min_th otherwise; the largest bright threshold in range, or min_th when none is; every threshold below a bright result is bright |
| Preprocessing.Binarize | test_ocr_for_doc1/lib/preprocess.py:79 | same shape, 255 above the threshold and 0 elsewhere |
| Preprocessing.BinarizeCount | test_ocr_for_doc1/lib/preprocess.py:79 | the white pixels of the binarised image are exactly those above the threshold |
| Preprocessing.DefaultLuminanceThreshold.constructor | test_ocr_for_doc1/lib/preprocess.py:58-62 | requires 0 < luminance_percentage ≤ 1 and stores the three parameters |
| Preprocessing.DefaultLuminanceThreshold.Compute | test_ocr_for_doc1/lib/preprocess.py:64-80 | a missing image is an error; otherwise the descending loop returns the specified threshold and the binarisation at it |
| Preprocessing.ToGray | test_ocr_for_doc1/lib/preprocess.py:198-204 | a 2-D image unchanged, a 3-channel 3-D image converted, and an error for every other shape |
| Preprocessing.Preprocessor.constructor | test_ocr_for_doc1/lib/preprocess.py:163-172 | the given threshold strategy, or the default (0.2, 100, 200) |
| Preprocessing.Preprocessor.ComputeThreshold | test_ocr_for_doc1/lib/preprocess.py:206-208 | a bad shape is an error; otherwise the strategy's result on the grey image |
| Preprocessing.Preprocessor.ProcessOne | test_ocr_for_doc1/lib/preprocess.py:174-194 | a missing image or a bad shape is an error; otherwise the later steps run on the binarised image and the input |
| NaturalSort.TextRun | test_ocr_for_doc2/main.py:16 | the longest digit-free prefix |
| NaturalSort.DigitRun | test_ocr_for_doc2/main.py:16 | the longest all-digit prefix, non-empty when the text starts with a digit |
| NaturalSort.LeadText | test_ocr_for_doc2/main.py:16 | the leading piece has no digit and is followed by a digit or the end |
| NaturalSort.LeadRun | test_ocr_for_doc2/main.py:16 | the digit run after it is maximal |
| NaturalSort.SplitDigitsShape | test_ocr_for_doc2/main.py:16 | the split alternates text, run, text, …, starting and ending with a digit-free (possibly empty) text, with maximal runs |
| NaturalSort.SplitDigitsJoin | test_ocr_for_doc2/main.py:16 | the pieces join back to the name |
| NaturalSort.KeyOf | test_ocr_for_doc2/main.py:16 | one key part per piece |
| NaturalSort.KeyOfAlternating | test_ocr_for_doc2/main.py:16 | the key interleaves the lower-cased texts with the run values |
| NaturalSort.NaturalKeySpec | test_ocr_for_doc2/main.py:12-16 | the key interleaves the digit-free, lower-cased skeleton with the values of the maximal digit runs in order, one per run |
| NaturalSort.KeyLessStrictTotal | test_ocr_for_doc2/main.py:54-57 | the key order is irreflexive, transitive and total |
| NaturalSort.InterleaveOrder | test_ocr_for_doc2/main.py:16 | keys with one skeleton order as their lists of numbers |
| NaturalSort.SameSkeletonOrder | test_ocr_for_doc2/main.py:12-16 | names with the same skeleton order by the values of their runs, so page_2 comes before page_10 |
| NaturalSort.KeysAlign | test_ocr_for_doc2/main.py:16 | two keys always hold text and numbers at the same positions, so comparing them never compares text with a number |
| NaturalSort.RFind | test_ocr_for_doc2/main.py:55 | the position of the last occurrence, or -1 |
| NaturalSort.SuffixSpec | test_ocr_for_doc2/main.py:55 | the suffix is empty, or a dot, at least one more character and no other dot, ending the name and not the whole name |
| NaturalSort.InsertByKeyPermutation | test_ocr_for_doc2/main.py:54-57 | insertion adds exactly the new element |
| NaturalSort.InsertByKeySorted | test_ocr_for_doc2/main.py:54-57 | insertion into a sorted list keeps it sorted |
| NaturalSort.SortByKeySpec | test_ocr_for_doc2/main.py:54-57 | the sort is ordered by the key and a permutation of its input |
| NaturalSort.ImagePathsSpec | test_ocr_for_doc2/main.py:54-57 | the image list is a permutation of the regular files with an image suffix, ordered by the natural key |

## Left out

- The regular-expression engine. Every pattern that is not a single character class goes through an oracle parameter (`Search`, `FindIter`, `FindPairs`). The patterns' own languages, such as what a date pattern accepts, are not modelled.
- `round(x, 3)` on confidences and coordinates. Values are carried unrounded as `real`, and IEEE floating point is not modelled.
- `datetime.now()` timestamps enter as a `processedAt` parameter.
- `mimetypes.guess_type` enters `DocumentProcessing.MimeType` as an optional parameter. Only the fallback table is modelled.
- The OpenCV and numpy steps. `cvtColor` and the contour and perspective-transform strategies (`LargestContourSelector`, `ApproxPolyPerspectiveTransform`, `_order_points`) are function parameters. The `cv2.threshold` call is modelled as `Preprocessing.Binarize`.
- Cloud clients, credentials and file I/O. This covers `setup_form_parser_client`, `process_document_with_form_parser`, `DocumentAIProcessor.process_document`, `process_document_ai_json`, `process_with_smart_extractor`, the OCR wrappers, the image loaders, the output writer and the scripts.
- The directory listing of `image_paths`. `NaturalSort.ImagePaths` takes the listed entries (name and whether each is a regular file) as its input.
- `NaturalSort.Suffix` follows `pathlib` before Python 3.14: a name ending in a dot has no suffix.
- Characters beyond ASCII.
  - `lower()` is modelled for ASCII letters only.
  - `\d` and `isdigit` are modelled as ASCII and full-width digits. Other Unicode decimal digits and superscripts are not modelled.
- `NaturalSort.PartLess` orders a text part before a number part, whereas Python would raise `TypeError` on that comparison. `NaturalSort.KeysAlign` proves two keys never reach it.
- `NaturalSort.SortByKeySpec`: the sort keeps equal keys in input order by construction, but no lemma states that stability.
- The `text_indices` dict is carried as `Layout.Token`'s start and end positions. The `detected_break` and `detected_languages` keys of the form extractor's token dicts are not modelled, since nothing in the core reads them.
- `DataParsing.ExtractFieldValue`: the second element of the pair the source returns is always `None` and is not modelled.
- The `data` dictionary of a parse result is a Dafny `map`, so its insertion order is not modelled. Missing fields and warnings keep their order.
- `DataParsing.SeqScanData` and `DataParsing.SeqScanWarnings` assume the field keys are distinct. With a repeated key the source overwrites, and the lemmas say nothing about that case.
- Strategies other than the two parsers shipped with `DataParser` are not modelled. The `ParsingStrategy` protocol is a closed datatype of those two.
- test_ocr_for_doc1/lib/prepro_test.py is not part of this model. Its threshold search duplicates the one in preprocess.py.
- The raw `vertices` entry that the form extractor's copy of `_get_normalized_coordinates` adds to the box is not modelled. `Geometry.Box` holds only the corners and the centre.
- `Preprocessing.Preprocessor` holds a `DefaultLuminanceThreshold` rather than any object following the `ThresholdStrategy` protocol. The contour and transform strategies enter `ProcessOne` as one function parameter.
