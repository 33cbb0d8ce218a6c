/** The natural ordering of page images in test_ocr_for_doc2/main.py: a file
    name is split around its digit runs, the runs compare as numbers and the
    text between them compares case-insensitively, so `page_2.png` comes before
    `page_10.png`. The image list keeps the regular files whose suffix is an
    image extension, sorted stably by that key. */
module NaturalSort {
  import opened Common

  // ---------------------------------------------------------------------------
  // `re.split(r"(\d+)", name)`
  // ---------------------------------------------------------------------------

  predicate NoDigits(s: string) {
    forall k :: 0 <= k < |s| ==> !IsDigit(s[k])
  }

  /** `str.isdigit()`: non-empty and all digits. */
  predicate AllDigits(s: string) {
    s != [] && forall k :: 0 <= k < |s| ==> IsDigit(s[k])
  }

  /** The length of the longest prefix without a digit. */
  function TextRun(s: string): (n: nat)
    ensures n <= |s| && forall k :: 0 <= k < n ==> !IsDigit(s[k])
    ensures n < |s| ==> IsDigit(s[n])
  {
    if s == [] || IsDigit(s[0]) then 0 else 1 + TextRun(s[1..])
  }

  /** The length of the longest prefix of digits. */
  function DigitRun(s: string): (n: nat)
    ensures n <= |s| && forall k :: 0 <= k < n ==> IsDigit(s[k])
    ensures n < |s| ==> !IsDigit(s[n])
    ensures s != [] && IsDigit(s[0]) ==> n >= 1
  {
    if s == [] || !IsDigit(s[0]) then 0 else 1 + DigitRun(s[1..])
  }

  /** The text before the first digit. */
  function LeadText(s: string): (t: string)
    ensures NoDigits(t) && |t| <= |s| && s[..|t|] == t
    ensures |t| < |s| ==> IsDigit(s[|t|])
  {
    s[..TextRun(s)]
  }

  /** The digit run that follows the leading text, when there is one. */
  function LeadRun(s: string): (d: string)
    requires |LeadText(s)| < |s|
    ensures AllDigits(d) && |LeadText(s)| + |d| <= |s| && s[|LeadText(s)|..|LeadText(s)| + |d|] == d
    ensures |LeadText(s)| + |d| < |s| ==> !IsDigit(s[|LeadText(s)| + |d|])
  {
    var a := TextRun(s);
    assert s[a..][0] == s[a];
    s[a..][..DigitRun(s[a..])]
  }

  /** The pieces of `re.split` with a capturing group: text, run, text, …, text. */
  function SplitDigits(s: string): seq<string>
    decreases |s|
  {
    if |LeadText(s)| == |s| then [s]
    else [LeadText(s), LeadRun(s)] + SplitDigits(s[|LeadText(s)| + |LeadRun(s)|..])
  }

  /** `"".join(parts)`. */
  function Concat(parts: seq<string>): string {
    if parts == [] then [] else parts[0] + Concat(parts[1..])
  }

  /** Text and digit runs alternate, starting and ending with a (possibly
      empty) text, and the runs are maximal: the text strictly between two runs
      is never empty. */
  predicate Alternating(r: seq<string>)
    decreases |r|
  {
    && |r| >= 1 && NoDigits(r[0])
    && (|r| == 1 || (|r| >= 3 && AllDigits(r[1]) && (|r| > 3 ==> r[2] != []) && Alternating(r[2..])))
  }

  lemma {:induction false} SplitDigitsShape(s: string)
    ensures Alternating(SplitDigits(s))
    decreases |s|
  {
    var r := SplitDigits(s);
    if |LeadText(s)| < |s| {
      var t := s[|LeadText(s)| + |LeadRun(s)|..];
      var rest := SplitDigits(t);
      SplitDigitsShape(t);
      assert r == [LeadText(s), LeadRun(s)] + rest;
      assert r[2..] == rest;
      if |rest| > 1 {
        assert t != [] && !IsDigit(t[0]);
        assert |LeadText(t)| >= 1;
      }
    } else {
      assert LeadText(s) == s;
    }
  }

  /** Joining the pieces gives back the name. */
  lemma {:induction false} SplitDigitsJoin(s: string)
    ensures Concat(SplitDigits(s)) == s
    decreases |s|
  {
    if |LeadText(s)| == |s| {
      assert SplitDigits(s) == [s];
      assert Concat([s]) == s + Concat([]);
    } else {
      var a, d := LeadText(s), LeadRun(s);
      var t := s[|a| + |d|..];
      SplitDigitsJoin(t);
      var r := SplitDigits(s);
      assert r == [a, d] + SplitDigits(t);
      assert r[1..][1..] == SplitDigits(t);
      assert Concat(r) == a + (d + t);
      assert s == s[..|a|] + s[|a|..|a| + |d|] + t;
    }
  }

  // ---------------------------------------------------------------------------
  // `natural_key`
  // ---------------------------------------------------------------------------

  /** An element of the key: a lower-cased text piece or a number. */
  datatype KeyPart = Text(s: string) | Number(n: nat)

  /** `int(s) if s.isdigit() else s.lower()`. */
  function PartOf(s: string): KeyPart {
    if AllDigits(s) then Number(DecimalValue(s)) else Text(Lower(s))
  }

  /** The comprehension over the pieces. */
  function KeyOf(pieces: seq<string>): (k: seq<KeyPart>)
    ensures |k| == |pieces|
  {
    if pieces == [] then [] else [PartOf(pieces[0])] + KeyOf(pieces[1..])
  }

  function NaturalKey(name: string): seq<KeyPart> {
    KeyOf(SplitDigits(name))
  }

  /** The lower-cased texts of alternating pieces: the name's skeleton. */
  function Texts(r: seq<string>): seq<string>
    decreases |r|
  {
    if r == [] then [] else [Lower(r[0])] + (if |r| >= 2 then Texts(r[2..]) else [])
  }

  /** The values of the digit runs of alternating pieces, in order. */
  function RunValues(r: seq<string>): seq<nat>
    requires Alternating(r)
    decreases |r|
  {
    if |r| == 1 then [] else [DecimalValue(r[1])] + RunValues(r[2..])
  }

  function Skeleton(name: string): seq<string> {
    Texts(SplitDigits(name))
  }

  function Numbers(name: string): seq<nat> {
    SplitDigitsShape(name);
    RunValues(SplitDigits(name))
  }

  /** Texts interleaved with numbers: text, number, text, …, text. */
  function Interleave(ts: seq<string>, ns: seq<nat>): seq<KeyPart>
    requires |ts| == |ns| + 1
  {
    if ns == [] then [Text(ts[0])] else [Text(ts[0]), Number(ns[0])] + Interleave(ts[1..], ns[1..])
  }

  predicate NoUpper(s: string) {
    forall k :: 0 <= k < |s| ==> !('A' <= s[k] <= 'Z')
  }

  /** Text and number alternate, starting and ending with text, and no text
      holds a digit or an upper-case letter. */
  predicate KeyShape(k: seq<KeyPart>)
    decreases |k|
  {
    && |k| >= 1 && k[0].Text? && NoDigits(k[0].s) && NoUpper(k[0].s)
    && (|k| == 1 || (|k| >= 3 && k[1].Number? && KeyShape(k[2..])))
  }

  lemma {:induction false} KeyOfAlternating(r: seq<string>)
    requires Alternating(r)
    ensures |Texts(r)| == |RunValues(r)| + 1
    ensures KeyOf(r) == Interleave(Texts(r), RunValues(r))
    ensures KeyShape(KeyOf(r))
    decreases |r|
  {
    assert NoDigits(Lower(r[0])) && NoUpper(Lower(r[0]));
    assert !AllDigits(r[0]) by {
      if r[0] != [] {
        assert !IsDigit(r[0][0]);
      }
    }
    assert KeyOf(r)[0] == Text(Lower(r[0]));
    if |r| > 1 {
      KeyOfAlternating(r[2..]);
      assert KeyOf(r)[1..][1..] == KeyOf(r[2..]);
      assert KeyOf(r) == [Text(Lower(r[0])), Number(DecimalValue(r[1]))] + KeyOf(r[2..]);
    }
  }

  /** `natural_key(name)`: the pieces alternate text and maximal digit runs and
      join back to the name; the key interleaves the lower-cased texts (the
      skeleton) with the runs' values, starts and ends with a text, and its
      texts hold no digit and no upper-case letter. */
  lemma NaturalKeySpec(name: string)
    ensures Alternating(SplitDigits(name)) && Concat(SplitDigits(name)) == name
    ensures |Skeleton(name)| == |Numbers(name)| + 1
    ensures NaturalKey(name) == Interleave(Skeleton(name), Numbers(name))
    ensures KeyShape(NaturalKey(name))
  {
    SplitDigitsShape(name);
    SplitDigitsJoin(name);
    KeyOfAlternating(SplitDigits(name));
  }

  // ---------------------------------------------------------------------------
  // Python's ordering of keys
  // ---------------------------------------------------------------------------

  /** Python's sequence comparison `a < b`: the first position where the
      elements differ decides, and a proper prefix comes first. */
  function LexLess<T(==)>(a: seq<T>, b: seq<T>, less: (T, T) -> bool): bool {
    if a == [] then b != []
    else if b == [] then false
    else if a[0] != b[0] then less(a[0], b[0])
    else LexLess(a[1..], b[1..], less)
  }

  /** `less` is a strict total order. */
  ghost predicate StrictTotal<T(!new)>(less: (T, T) -> bool) {
    && (forall x :: !less(x, x))
    && (forall x, y, z :: less(x, y) && less(y, z) ==> less(x, z))
    && (forall x, y :: x != y ==> less(x, y) || less(y, x))
  }

  /** No sequence precedes itself. */
  lemma {:induction false} LexIrreflexive<T(!new)>(less: (T, T) -> bool, a: seq<T>)
    requires StrictTotal(less)
    ensures !LexLess(a, a, less)
  {
    if a != [] {
      LexIrreflexive(less, a[1..]);
    }
  }

  /** The comparison of sequences is transitive. */
  lemma {:induction false} LexTransitive<T(!new)>(less: (T, T) -> bool, a: seq<T>, b: seq<T>, c: seq<T>)
    requires StrictTotal(less) && LexLess(a, b, less) && LexLess(b, c, less)
    ensures LexLess(a, c, less)
  {
    if a != [] && c != [] && a[0] == b[0] && b[0] == c[0] {
      LexTransitive(less, a[1..], b[1..], c[1..]);
    }
  }

  /** Of two different sequences one precedes the other. */
  lemma {:induction false} LexTotal<T(!new)>(less: (T, T) -> bool, a: seq<T>, b: seq<T>)
    requires StrictTotal(less) && a != b
    ensures LexLess(a, b, less) || LexLess(b, a, less)
  {
    if a != [] && b != [] && a[0] == b[0] {
      assert a == [a[0]] + a[1..] && b == [b[0]] + b[1..];
      LexTotal(less, a[1..], b[1..]);
    }
  }

  function CharLess(x: char, y: char): bool {
    x < y
  }

  /** Python's `str < str`: by code point. */
  function StrLess(a: string, b: string): bool {
    LexLess(a, b, CharLess)
  }

  /** Comparing two parts. A text and a number never meet in the keys of two
      names (see `KeysAlign`), where Python would raise `TypeError`; the
      order given to that case here is never used. */
  function PartLess(p: KeyPart, q: KeyPart): bool {
    match (p, q)
    case (Text(s), Text(t)) => StrLess(s, t)
    case (Number(x), Number(y)) => x < y
    case (Text(_), Number(_)) => true
    case (Number(_), Text(_)) => false
  }

  /** `natural_key(a) < natural_key(b)`. */
  function KeyLess(a: seq<KeyPart>, b: seq<KeyPart>): bool {
    LexLess(a, b, PartLess)
  }

  lemma CharLessStrictTotal()
    ensures StrictTotal(CharLess)
  {
  }

  lemma PartLessStrictTotal()
    ensures StrictTotal(PartLess)
  {
    CharLessStrictTotal();
    forall p: KeyPart ensures !PartLess(p, p) {
      if p.Text? {
        LexIrreflexive(CharLess, p.s);
      }
    }
    forall p: KeyPart, q: KeyPart, r: KeyPart | PartLess(p, q) && PartLess(q, r) ensures PartLess(p, r) {
      if p.Text? && q.Text? && r.Text? {
        LexTransitive(CharLess, p.s, q.s, r.s);
      }
    }
    forall p: KeyPart, q: KeyPart | p != q ensures PartLess(p, q) || PartLess(q, p) {
      if p.Text? && q.Text? {
        LexTotal(CharLess, p.s, q.s);
      }
    }
  }

  /** Keys are ordered strictly and totally: no key precedes itself, the order
      is transitive, and of two different keys one precedes the other. */
  lemma KeyLessStrictTotal(a: seq<KeyPart>, b: seq<KeyPart>, c: seq<KeyPart>)
    ensures !KeyLess(a, a)
    ensures KeyLess(a, b) && KeyLess(b, c) ==> KeyLess(a, c)
    ensures a != b ==> KeyLess(a, b) || KeyLess(b, a)
  {
    PartLessStrictTotal();
    LexIrreflexive(PartLess, a);
    if KeyLess(a, b) && KeyLess(b, c) {
      LexTransitive(PartLess, a, b, c);
    }
    if a != b {
      LexTotal(PartLess, a, b);
    }
  }

  function NatLess(x: nat, y: nat): bool {
    x < y
  }

  /** Interleaving one skeleton with two lists of numbers orders the results
      as the lists of numbers are ordered. */
  lemma {:induction false} InterleaveOrder(ts: seq<string>, xs: seq<nat>, ys: seq<nat>)
    requires |ts| == |xs| + 1 == |ys| + 1
    ensures KeyLess(Interleave(ts, xs), Interleave(ts, ys)) == LexLess(xs, ys, NatLess)
  {
    var ka, kb := Interleave(ts, xs), Interleave(ts, ys);
    if xs != [] {
      InterleaveOrder(ts[1..], xs[1..], ys[1..]);
      assert ka[1..] == [Number(xs[0])] + Interleave(ts[1..], xs[1..]);
      assert kb[1..] == [Number(ys[0])] + Interleave(ts[1..], ys[1..]);
      assert ka[1..][1..] == Interleave(ts[1..], xs[1..]);
      assert kb[1..][1..] == Interleave(ts[1..], ys[1..]);
      assert KeyLess(ka, kb) == LexLess(ka[1..], kb[1..], PartLess);
      if xs[0] != ys[0] {
        assert LexLess(ka[1..], kb[1..], PartLess) == PartLess(Number(xs[0]), Number(ys[0]));
      } else {
        assert LexLess(ka[1..], kb[1..], PartLess) == KeyLess(ka[1..][1..], kb[1..][1..]);
      }
    } else {
      assert ys == [] && ka == kb == [Text(ts[0])];
      assert KeyLess(ka, kb) == LexLess(ka[1..], kb[1..], PartLess);
      assert ka[1..] == kb[1..] == [];
    }
  }

  /** Names with the same skeleton (the same texts between their digit runs,
      up to case) have as many runs, and their keys compare exactly as the
      lists of run values do: the first run whose value differs decides,
      whatever the runs' lengths or leading zeros. So `page_2.png` precedes
      `page_10.png`, and `page_009` precedes `page_010`. */
  lemma SameSkeletonOrder(a: string, b: string)
    requires Skeleton(a) == Skeleton(b)
    ensures |Numbers(a)| == |Numbers(b)|
    ensures KeyLess(NaturalKey(a), NaturalKey(b)) <==> LexLess(Numbers(a), Numbers(b), NatLess)
  {
    NaturalKeySpec(a);
    NaturalKeySpec(b);
    InterleaveOrder(Skeleton(a), Numbers(a), Numbers(b));
  }

  /** Parts of the same kind at every position both keys have. */
  predicate SameKinds(ka: seq<KeyPart>, kb: seq<KeyPart>)
    decreases |ka|
  {
    ka == [] || kb == [] || (ka[0].Text? == kb[0].Text? && SameKinds(ka[1..], kb[1..]))
  }

  /** Any two natural keys align text with text and number with number, so
      the comparison never meets a text against a number. */
  lemma {:induction false} KeysAlign(ka: seq<KeyPart>, kb: seq<KeyPart>)
    requires KeyShape(ka) && KeyShape(kb)
    ensures SameKinds(ka, kb)
    decreases |ka|
  {
    if |ka| >= 3 && |kb| >= 3 {
      KeysAlign(ka[2..], kb[2..]);
      assert ka[1..][1..] == ka[2..] && kb[1..][1..] == kb[2..];
    }
  }

  // ---------------------------------------------------------------------------
  // The image list
  // ---------------------------------------------------------------------------

  /** An entry of the image directory: its name and whether it is a regular file. */
  datatype DirEntry = DirEntry(name: string, isFile: bool)

  /** The index of the last `c` in `s`, or -1 (`str.rfind`). */
  function RFind(s: string, c: char): (i: int)
    ensures -1 <= i < |s|
    ensures i >= 0 ==> s[i] == c
    ensures forall k :: i < k < |s| ==> s[k] != c
  {
    if s == [] then -1
    else if s[|s| - 1] == c then |s| - 1
    else RFind(s[..|s| - 1], c)
  }

  /** `PurePath.suffix` of a file name: from the last dot, unless that dot is
      the first or the last character. */
  function Suffix(name: string): string {
    var i := RFind(name, '.');
    if 0 < i < |name| - 1 then name[i..] else ""
  }

  /** A suffix is empty, or a dot and at least one more character, ending the
      name, not the whole name, and holding no other dot; it is empty exactly
      when every dot strictly inside the name is followed by another dot, that
      is, when the last dot is missing, first or last. */
  lemma SuffixSpec(name: string)
    ensures var x := Suffix(name);
            && (x == [] || (|x| >= 2 && x[0] == '.' && |x| < |name| && name[|name| - |x|..] == x
                            && forall k :: 1 <= k < |x| ==> x[k] != '.'))
            && (x == [] <==> forall k :: 0 < k < |name| - 1 ==> name[k] != '.' || exists j :: k < j < |name| && name[j] == '.')
  {
    var i := RFind(name, '.');
    var x := Suffix(name);
    if x == [] && !(0 < i < |name| - 1) {
      forall k | 0 < k < |name| - 1 && name[k] == '.' ensures exists j :: k < j < |name| && name[j] == '.' {
        assert i >= k;
        assert i == |name| - 1;
      }
    }
  }

  const ImageExtensions: set<string> := {".png", ".jpg", ".jpeg", ".tif", ".tiff"}

  /** `p.is_file() and p.suffix.lower() in exts`. */
  predicate IsImage(e: DirEntry) {
    e.isFile && Lower(Suffix(e.name)) in ImageExtensions
  }

  function Key(e: DirEntry): seq<KeyPart> {
    NaturalKey(e.name)
  }

  /** Ascending by key. */
  predicate SortedByKey<T>(s: seq<T>, key: T -> seq<KeyPart>) {
    forall i, j :: 0 <= i < j < |s| ==> !KeyLess(key(s[j]), key(s[i]))
  }

  /** Inserts `x` after every element whose key does not exceed its own. */
  function InsertByKey<T>(x: T, s: seq<T>, key: T -> seq<KeyPart>): seq<T> {
    if s == [] then [x]
    else if KeyLess(key(x), key(s[0])) then [x] + s
    else [s[0]] + InsertByKey(x, s[1..], key)
  }

  /** `sorted(s, key=...)`: Python's sort is stable, so elements with equal keys
      keep their order, as insertion after the equal ones does. */
  function SortByKey<T>(s: seq<T>, key: T -> seq<KeyPart>): seq<T> {
    if s == [] then [] else InsertByKey(s[|s| - 1], SortByKey(s[..|s| - 1], key), key)
  }

  /** Insertion adds exactly `x`. */
  lemma {:induction false} InsertByKeyPermutation<T>(x: T, s: seq<T>, key: T -> seq<KeyPart>)
    ensures multiset(InsertByKey(x, s, key)) == multiset(s) + multiset{x}
  {
    if s != [] && !KeyLess(key(x), key(s[0])) {
      InsertByKeyPermutation(x, s[1..], key);
      assert s == [s[0]] + s[1..];
    }
  }

  /** Insertion into a sorted sequence keeps it sorted. */
  lemma {:induction false} InsertByKeySorted<T>(x: T, s: seq<T>, key: T -> seq<KeyPart>)
    requires SortedByKey(s, key)
    ensures SortedByKey(InsertByKey(x, s, key), key)
  {
    var r := InsertByKey(x, s, key);
    if s == [] {
    } else if KeyLess(key(x), key(s[0])) {
      assert r[1..] == s;
      forall j | 0 < j < |r| ensures !KeyLess(key(r[j]), key(x)) {
        var y := r[j];
        assert y == s[j - 1];
        if j > 1 {
          assert !KeyLess(key(y), key(s[0]));
        }
        KeyLessStrictTotal(key(x), key(s[0]), key(y));
        KeyLessStrictTotal(key(y), key(x), key(s[0]));
      }
    } else {
      var tail := InsertByKey(x, s[1..], key);
      assert SortedByKey(s[1..], key) by {
        forall i, j | 0 <= i < j < |s| - 1 ensures !KeyLess(key(s[1..][j]), key(s[1..][i])) {
          assert s[1..][j] == s[j + 1] && s[1..][i] == s[i + 1];
        }
      }
      InsertByKeySorted(x, s[1..], key);
      InsertByKeyPermutation(x, s[1..], key);
      assert r == [s[0]] + tail;
      forall j | 0 < j < |r| ensures !KeyLess(key(r[j]), key(s[0])) {
        var y := r[j];
        assert y == tail[j - 1];
        assert y in multiset(tail);
        if y == x {
          KeyLessStrictTotal(key(x), key(s[0]), key(x));
        } else {
          assert y in multiset(s[1..]);
          var q :| 0 <= q < |s[1..]| && s[1..][q] == y;
          assert s[q + 1] == y;
        }
      }
    }
  }

  /** The sort orders by key and is a permutation of its input. */
  lemma {:induction false} SortByKeySpec<T>(s: seq<T>, key: T -> seq<KeyPart>)
    ensures SortedByKey(SortByKey(s, key), key)
    ensures multiset(SortByKey(s, key)) == multiset(s)
  {
    if s != [] {
      var n := |s| - 1;
      SortByKeySpec(s[..n], key);
      InsertByKeySorted(s[n], SortByKey(s[..n], key), key);
      InsertByKeyPermutation(s[n], SortByKey(s[..n], key), key);
      assert s == s[..n] + [s[n]];
    }
  }

  /** `image_paths`: the image files of the directory in natural order. */
  function ImagePaths(entries: seq<DirEntry>): seq<DirEntry> {
    SortByKey(Filter(entries, IsImage), Key)
  }

  /** The image list holds exactly the directory's image files, each as often
      as it is listed, and is ordered by the natural key. */
  lemma ImagePathsSpec(entries: seq<DirEntry>)
    ensures var r := ImagePaths(entries);
            && multiset(r) == multiset(Filter(entries, IsImage))
            && SortedByKey(r, Key)
            && (forall e :: e in r <==> e in entries && IsImage(e))
  {
    var f := Filter(entries, IsImage);
    SortByKeySpec(f, Key);
    FilterMembers(entries, IsImage);
    forall e ensures e in ImagePaths(entries) <==> e in f {
      assert e in multiset(ImagePaths(entries)) <==> e in multiset(f);
    }
  }
}
