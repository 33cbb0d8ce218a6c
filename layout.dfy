/** Token normalisation for the layout-rich input. `_extract_token_info` in
    smart_field_extractor.py and `_extract_tokens` in form_processor.py walk the
    page's tokens the same way: a token without text segments is dropped; the
    first segment's start defaults to 0 and its end to the start; the text is the
    (clamped) slice of the full text; the confidence defaults to 0.0; the bounding
    polygon is normalised. Both are modelled by `ExtractTokens`; `index` is the
    smart extractor's `index` and the form extractor's `token_id`. */
module Layout {
  import opened Common
  import opened Geometry

  /** A `textSegments` entry; either bound may be absent from the JSON. */
  datatype RawSegment = RawSegment(startIndex: Option<int>, endIndex: Option<int>)

  /** A token as it comes from the document-analysis response. */
  datatype RawToken = RawToken(segments: seq<RawSegment>, confidence: Option<real>, vertices: seq<Vertex>)

  /** A normalised token. `startPos`/`endPos` are the raw indices (not clamped);
      `coords` is None when the polygon gave no box (the `{}` of the source). */
  datatype Token = Token(index: nat, text: string, confidence: real, startPos: int, endPos: int, coords: Option<Box>)

  /** `page["dimension"]`; every entry may be absent. */
  datatype Dimension = Dimension(width: Option<real>, height: Option<real>, unit: Option<string>)

  /** The parts of a page that the token-based extractors read. */
  datatype RawPage = RawPage(tokens: seq<RawToken>, dimension: Dimension, detectedLanguages: seq<string>)

  /** `response["document"]`: its full text (possibly absent) and its pages. */
  datatype RawDocument = RawDocument(text: Option<string>, pages: seq<RawPage>)

  /** `document.get("text", "")`. */
  function DocText(doc: RawDocument): string {
    match doc.text case Some(t) => t case None => ""
  }

  /** The token built from raw token `r` found at position `idx`. */
  function MakeToken(r: RawToken, idx: nat, fullText: string): (t: Token)
    requires r.segments != []
    ensures t.index == idx
    ensures t.text == Slice(fullText, t.startPos, t.endPos)
    ensures r.segments[0].startIndex.None? ==> t.startPos == 0
    ensures r.segments[0].endIndex.None? ==> t.endPos == t.startPos
    ensures t.coords.Some? ==> WellFormed(t.coords.value)
  {
    var seg := r.segments[0];
    var start := match seg.startIndex case Some(s) => s case None => 0;
    var end := match seg.endIndex case Some(e) => e case None => start;
    Token(idx, Slice(fullText, start, end),
          match r.confidence case Some(c) => c case None => 0.0,
          start, end, NormalizedBox(r.vertices))
  }

  /** The tokens of a page, in page order, as a specification. */
  function Tokens(raw: seq<RawToken>, fullText: string): (ts: seq<Token>)
    ensures |ts| <= |raw|
    ensures forall k :: 0 <= k < |ts| ==> ts[k].index < |raw| && raw[ts[k].index].segments != []
                                           && ts[k] == MakeToken(raw[ts[k].index], ts[k].index, fullText)
    ensures forall k, l :: 0 <= k < l < |ts| ==> ts[k].index < ts[l].index
  {
    if raw == [] then []
    else
      var n := |raw| - 1;
      var front := Tokens(raw[..n], fullText);
      if raw[n].segments != [] then front + [MakeToken(raw[n], n, fullText)] else front
  }

  /** `_extract_token_info` / `_extract_tokens`: one pass over the raw tokens. */
  method ExtractTokens(raw: seq<RawToken>, fullText: string) returns (tokens: seq<Token>)
    ensures tokens == Tokens(raw, fullText)
  {
    tokens := [];
    var idx := 0;
    while idx < |raw|
      invariant 0 <= idx <= |raw|
      invariant tokens == Tokens(raw[..idx], fullText)
    {
      assert raw[..idx + 1][..idx] == raw[..idx];
      if raw[idx].segments != [] {
        tokens := tokens + [MakeToken(raw[idx], idx, fullText)];
      }
      idx := idx + 1;
    }
    assert raw[..idx] == raw;
  }

  /** Every raw token that has a text segment yields exactly one token; the others
      are dropped. */
  lemma {:induction false} TokensComplete(raw: seq<RawToken>, fullText: string, i: nat)
    requires i < |raw|
    ensures raw[i].segments != [] ==> exists k :: 0 <= k < |Tokens(raw, fullText)| && Tokens(raw, fullText)[k].index == i
    ensures (exists k :: 0 <= k < |Tokens(raw, fullText)| && Tokens(raw, fullText)[k].index == i) ==> raw[i].segments != []
  {
    var n := |raw| - 1;
    if i < n {
      TokensComplete(raw[..n], fullText, i);
      assert raw[..n][i] == raw[i];
      var ts, front := Tokens(raw, fullText), Tokens(raw[..n], fullText);
      assert ts[..|front|] == front;
      if raw[i].segments != [] {
        var k :| 0 <= k < |front| && front[k].index == i;
        assert ts[k].index == i;
      }
    } else {
      var ts := Tokens(raw, fullText);
      var front := Tokens(raw[..n], fullText);
      if raw[n].segments != [] {
        assert ts == front + [MakeToken(raw[n], n, fullText)];
        assert i == n && |front| < |ts| && ts[|front|].index == i;
      } else {
        assert ts == front;
      }
    }
  }

  /** The positions among the first `m` raw tokens that carry a segment. */
  function Anchored(raw: seq<RawToken>, m: nat): set<int>
    requires m <= |raw|
  {
    set i | 0 <= i < m && raw[i].segments != []
  }

  lemma TokensLength(raw: seq<RawToken>, fullText: string)
    requires raw != []
    ensures |Tokens(raw, fullText)| == |Tokens(raw[..|raw| - 1], fullText)| + (if raw[|raw| - 1].segments != [] then 1 else 0)
  {
  }

  lemma {:induction false} PrefixCount(raw: seq<RawToken>, fullText: string, m: nat)
    requires m <= |raw|
    ensures |Tokens(raw[..m], fullText)| == |Anchored(raw, m)|
  {
    if m > 0 {
      PrefixCount(raw, fullText, m - 1);
      var pre := raw[..m];
      assert pre[..m - 1] == raw[..m - 1];
      assert pre[m - 1] == raw[m - 1];
      TokensLength(pre, fullText);
      if raw[m - 1].segments != [] {
        assert Anchored(raw, m) == Anchored(raw, m - 1) + {m - 1};
      } else {
        assert Anchored(raw, m) == Anchored(raw, m - 1);
      }
    } else {
      assert Anchored(raw, 0) == {};
    }
  }

  /** The number of tokens is the number of raw tokens that carry a segment. */
  lemma TokenCount(raw: seq<RawToken>, fullText: string)
    ensures |Tokens(raw, fullText)| == |set i | 0 <= i < |raw| && raw[i].segments != []|
  {
    PrefixCount(raw, fullText, |raw|);
    assert raw[..|raw|] == raw;
  }
}
