/** Normalised bounding boxes. Every extractor turns the normalised vertices of
    a bounding polygon into an axis-aligned box with its centre; the three copies
    of that conversion (`_get_normalized_coordinates` in smart_field_extractor.py
    and form_processor.py, `_extract_coordinates_from_layout` in
    form_parser_processor.py) are the same computation and are modelled once here. */
module Geometry {
  import opened Common

  /** A vertex of `normalizedVertices`; either coordinate may be missing from the JSON. */
  datatype Vertex = Vertex(x: Option<real>, y: Option<real>)

  /** The coordinate dictionary: corners and centre. */
  datatype Box = Box(xMin: real, yMin: real, xMax: real, yMax: real, centerX: real, centerY: real)

  /** The centre lies inside the box on both axes. */
  predicate WellFormed(b: Box) {
    b.xMin <= b.centerX <= b.xMax && b.yMin <= b.centerY <= b.yMax
  }

  /** Closed-rectangle membership of a point. */
  predicate Inside(b: Box, x: real, y: real) {
    b.xMin <= x <= b.xMax && b.yMin <= y <= b.yMax
  }

  // ---------------------------------------------------------------------------
  // min, max and mean of a non-empty list of reals
  // ---------------------------------------------------------------------------

  function Min(s: seq<real>): (m: real)
    requires |s| > 0
    ensures forall k :: 0 <= k < |s| ==> m <= s[k]
  {
    if |s| == 1 then s[0] else var m := Min(s[..|s| - 1]); if s[|s| - 1] < m then s[|s| - 1] else m
  }

  function Max(s: seq<real>): (m: real)
    requires |s| > 0
    ensures forall k :: 0 <= k < |s| ==> s[k] <= m
  {
    if |s| == 1 then s[0] else var m := Max(s[..|s| - 1]); if s[|s| - 1] > m then s[|s| - 1] else m
  }

  /** Both extremes are elements of the list. */
  lemma {:induction false} MinMaxAttained(s: seq<real>)
    requires |s| > 0
    ensures Min(s) in s && Max(s) in s
  {
    if |s| > 1 {
      MinMaxAttained(s[..|s| - 1]);
    }
  }

  function SumR(s: seq<real>): real {
    if s == [] then 0.0 else SumR(s[..|s| - 1]) + s[|s| - 1]
  }

  function Mean(s: seq<real>): real
    requires |s| > 0
  {
    SumR(s) / (|s| as real)
  }

  /** A sum of values in [lo, hi] lies between |s|·lo and |s|·hi. */
  lemma {:induction false} SumBounds(s: seq<real>, lo: real, hi: real)
    requires forall k :: 0 <= k < |s| ==> lo <= s[k] <= hi
    ensures (|s| as real) * lo <= SumR(s) <= (|s| as real) * hi
  {
    if s != [] {
      SumBounds(s[..|s| - 1], lo, hi);
    }
  }

  lemma DivBetween(total: real, n: real, lo: real, hi: real)
    requires n > 0.0 && n * lo <= total <= n * hi
    ensures lo <= total / n <= hi
  {
    assert (total / n) * n == total;
  }

  lemma SumBetweenMinMax(s: seq<real>)
    requires |s| > 0
    ensures (|s| as real) * Min(s) <= SumR(s) <= (|s| as real) * Max(s)
  {
    SumBounds(s, Min(s), Max(s));
  }

  /** min ≤ mean ≤ max. */
  lemma MeanBetween(s: seq<real>)
    requires |s| > 0
    ensures Min(s) <= Mean(s) <= Max(s)
  {
    SumBetweenMinMax(s);
    DivBetween(SumR(s), |s| as real, Min(s), Max(s));
  }

  // ---------------------------------------------------------------------------
  // The conversion
  // ---------------------------------------------------------------------------

  /** `[v["x"] for v in vertices if "x" in v]`. */
  function Xs(vs: seq<Vertex>): (r: seq<real>)
    ensures forall k :: 0 <= k < |vs| && vs[k].x.Some? ==> vs[k].x.value in r
    ensures forall k :: 0 <= k < |r| ==> exists j :: 0 <= j < |vs| && vs[j].x == Some(r[k])
  {
    if vs == [] then []
    else
      var rest := Xs(vs[..|vs| - 1]);
      var last := vs[|vs| - 1];
      assert forall k :: 0 <= k < |vs| - 1 ==> vs[..|vs| - 1][k] == vs[k];
      if last.x.Some? then rest + [last.x.value] else rest
  }

  /** `[v["y"] for v in vertices if "y" in v]`. */
  function Ys(vs: seq<Vertex>): (r: seq<real>)
    ensures forall k :: 0 <= k < |vs| && vs[k].y.Some? ==> vs[k].y.value in r
    ensures forall k :: 0 <= k < |r| ==> exists j :: 0 <= j < |vs| && vs[j].y == Some(r[k])
  {
    if vs == [] then []
    else
      var rest := Ys(vs[..|vs| - 1]);
      var last := vs[|vs| - 1];
      assert forall k :: 0 <= k < |vs| - 1 ==> vs[..|vs| - 1][k] == vs[k];
      if last.y.Some? then rest + [last.y.value] else rest
  }

  /** The normalised box of a polygon: `{}` (None) when no vertex carries an x or
      none carries a y, otherwise min/max corners and the mean of the coordinates
      as centre. */
  function NormalizedBox(vs: seq<Vertex>): (c: Option<Box>)
    ensures c.None? <==> (forall k :: 0 <= k < |vs| ==> vs[k].x.None?) || (forall k :: 0 <= k < |vs| ==> vs[k].y.None?)
    ensures c.Some? ==> WellFormed(c.value)
    ensures c.Some? ==> forall k :: 0 <= k < |vs| && vs[k].x.Some? ==> c.value.xMin <= vs[k].x.value <= c.value.xMax
    ensures c.Some? ==> forall k :: 0 <= k < |vs| && vs[k].y.Some? ==> c.value.yMin <= vs[k].y.value <= c.value.yMax
    ensures c.Some? ==> exists k :: 0 <= k < |vs| && vs[k].x == Some(c.value.xMin)
    ensures c.Some? ==> exists k :: 0 <= k < |vs| && vs[k].x == Some(c.value.xMax)
    ensures c.Some? ==> exists k :: 0 <= k < |vs| && vs[k].y == Some(c.value.yMin)
    ensures c.Some? ==> exists k :: 0 <= k < |vs| && vs[k].y == Some(c.value.yMax)
  {
    var xs, ys := Xs(vs), Ys(vs);
    if vs == [] || xs == [] || ys == [] then
      None
    else
      MeanBetween(xs);
      MeanBetween(ys);
      MinMaxAttained(xs);
      MinMaxAttained(ys);
      Some(Box(Min(xs), Min(ys), Max(xs), Max(ys), Mean(xs), Mean(ys)))
  }
}
