/** Per-type plausibility checks applied to a candidate string before it is
    accepted. The two extractors keep separate tables: `SmartValid` is the one in
    smart_field_extractor.py (keyed by the Japanese field name), `FormValid` the
    one in form_processor.py (keyed by the field-type tag). Each regular
    expression they use is a single character class, possibly repeated, so each is
    written here as a character predicate. */
module Validators {
  import opened Common

  /** `[一-龯ひ-ゞァ-ヾa-zA-Z]`: CJK ideographs, hiragana from ひ, katakana, Latin letters. */
  predicate IsNameChar(c: char) {
    '一' <= c <= '龯' || 'ひ' <= c <= 'ゞ' || 'ァ' <= c <= 'ヾ' || 'a' <= c <= 'z' || 'A' <= c <= 'Z'
  }

  /** `[\d\-−\(\)]` (the minus sign is U+2212). */
  predicate IsSmartPhoneChar(c: char) {
    IsDigit(c) || c == '-' || c == '−' || c == '(' || c == ')'
  }

  /** `[\d\-－（）()]` (full-width hyphen and parentheses as well as ASCII ones). */
  predicate IsFormPhoneChar(c: char) {
    IsDigit(c) || c == '-' || c == '－' || c == '（' || c == '）' || c == '(' || c == ')'
  }

  /** `[\d年月日令和平成]`. */
  predicate IsDateChar(c: char) {
    IsDigit(c) || c in "年月日令和平成"
  }

  /** `[\d,，]`. */
  predicate IsAmountChar(c: char) {
    IsDigit(c) || c == ',' || c == '，'
  }

  /** `[\d,.，．]`. */
  predicate IsFormAmountChar(c: char) {
    IsDigit(c) || c in ",.，．"
  }

  /** `[一-龯]`. */
  predicate IsKanji(c: char) {
    '一' <= c <= '龯'
  }

  /** `[都道府県市区町村丁目番地号]`. */
  predicate IsAddressMarker(c: char) {
    c in "都道府県市区町村丁目番地号"
  }

  /** `[株式会社有限会社㈱㈲法人]`. */
  predicate IsCompanyMarker(c: char) {
    c in "株式会社有限会社㈱㈲法人"
  }

  /** `[部課係室グループ]`. */
  predicate IsDepartmentMarker(c: char) {
    c in "部課係室グループ"
  }

  /** `re.search(r'[C]', t)` for a character class C, as a left-to-right scan. */
  predicate AnyChar(t: string, P: char -> bool)
    decreases |t|
  {
    t != [] && (P(t[0]) || AnyChar(t[1..], P))
  }

  /** The scan succeeds exactly when some character of `t` is in the class. */
  lemma {:induction false} AnyCharSpec(t: string, P: char -> bool)
    ensures AnyChar(t, P) <==> exists k :: 0 <= k < |t| && P(t[k])
    decreases |t|
  {
    if t != [] {
      AnyCharSpec(t[1..], P);
      if exists k :: 0 <= k < |t| && P(t[k]) {
        var k :| 0 <= k < |t| && P(t[k]);
        if k > 0 {
          assert P(t[1..][k - 1]);
        }
      }
      if exists k :: 0 <= k < |t[1..]| && P(t[1..][k]) {
        var k :| 0 <= k < |t[1..]| && P(t[1..][k]);
        assert P(t[k + 1]);
      }
    }
  }

  /** `re.search(r'[C]{n,}', t)`: a left-to-right scan that counts the current
      run of class characters. */
  predicate HasRun(t: string, P: char -> bool, n: nat) {
    RunFrom(t, P, n, 0)
  }

  /** The scan of `t` when the `cur` characters just before it are in the class. */
  predicate RunFrom(t: string, P: char -> bool, n: nat, cur: nat)
    decreases |t|
  {
    cur >= n || (t != [] && RunFrom(t[1..], P, n, if P(t[0]) then cur + 1 else 0))
  }

  /** `n` consecutive class characters start at `i`. */
  predicate RunAt(t: string, P: char -> bool, n: nat, i: int) {
    0 <= i && i + n <= |t| && forall k :: i <= k < i + n ==> P(t[k])
  }

  /** Some run of `n` class characters lies inside `t`. */
  predicate SomeRun(t: string, P: char -> bool, n: nat) {
    exists i :: 0 <= i <= |t| && RunAt(t, P, n, i)
  }

  lemma RunAtShift(t: string, P: char -> bool, n: nat, i: nat)
    requires t != []
    ensures RunAt(t[1..], P, n, i) <==> RunAt(t, P, n, i + 1)
  {
    if RunAt(t[1..], P, n, i) {
      forall k | i + 1 <= k < i + 1 + n ensures P(t[k]) {
        assert t[k] == t[1..][k - 1];
      }
    }
  }

  /** A run inside `t` starts at its first character or inside `t[1..]`. */
  lemma SomeRunStep(t: string, P: char -> bool, n: nat)
    requires t != []
    ensures SomeRun(t, P, n) <==> RunAt(t, P, n, 0) || SomeRun(t[1..], P, n)
  {
    if SomeRun(t, P, n) && !RunAt(t, P, n, 0) {
      var i :| 0 <= i <= |t| && RunAt(t, P, n, i);
      RunAtShift(t, P, n, i - 1);
    }
    if SomeRun(t[1..], P, n) {
      var i :| 0 <= i <= |t[1..]| && RunAt(t[1..], P, n, i);
      RunAtShift(t, P, n, i);
    }
  }

  /** With a run of `cur < n` carried in, the scan succeeds exactly when the
      first `n - cur` characters complete that run or a whole run lies inside `t`. */
  lemma {:induction false} RunFromSpec(t: string, P: char -> bool, n: nat, cur: nat)
    requires cur < n
    ensures RunFrom(t, P, n, cur) <==> RunAt(t, P, n - cur, 0) || SomeRun(t, P, n)
    decreases |t|
  {
    if t != [] {
      SomeRunStep(t, P, n);
      if !P(t[0]) {
        RunFromSpec(t[1..], P, n, 0);
        assert !RunAt(t, P, n - cur, 0) && !RunAt(t, P, n, 0);
        assert RunAt(t[1..], P, n, 0) ==> SomeRun(t[1..], P, n);
      } else if cur + 1 < n {
        RunFromSpec(t[1..], P, n, cur + 1);
        RunAtShift(t, P, n - cur - 1, 0);
        assert RunAt(t, P, n - cur, 0) <==> RunAt(t, P, n - cur - 1, 1);
        assert RunAt(t, P, n, 0) ==> RunAt(t, P, n - cur, 0);
      } else {
        assert RunAt(t, P, n - cur, 0);
      }
    }
  }

  /** The scan succeeds exactly when some run of `n` class characters lies in `t`. */
  lemma HasRunSpec(t: string, P: char -> bool, n: nat)
    ensures HasRun(t, P, n) <==> SomeRun(t, P, n)
  {
    if n == 0 {
      assert RunAt(t, P, 0, 0);
    } else {
      RunFromSpec(t, P, n, 0);
    }
  }

  /** `SmartFieldExtractor._is_valid_field_value`. Unknown field names accept any
      non-blank text. */
  predicate SmartValid(text: string, fieldName: string)
  {
    SmartCheck(Strip(text), fieldName)
  }

  /** The per-name checks, on already stripped text. */
  predicate SmartCheck(t: string, fieldName: string)
  {
    if |t| < 1 then false
    else if fieldName == "氏名" then HasRun(t, IsNameChar, 2)
    else if fieldName == "金額" then AnyChar(t, IsAmountChar)
    else if fieldName == "住所" then |t| >= 3 && AnyChar(t, IsKanji)
    else if fieldName == "電話番号" then HasRun(t, IsSmartPhoneChar, 8)
    else if fieldName == "日付" then AnyChar(t, IsDateChar)
    else if fieldName == "メールアドレス" then '@' in t || '＠' in t
    else if fieldName == "会社名" then |t| >= 2
    else true
  }

  const SmartFieldNames: set<string> := {"氏名", "金額", "住所", "電話番号", "日付", "メールアドレス", "会社名"}

  /** `FormFieldExtractor._is_valid_field_value` (its context-keyword argument is unused). */
  predicate FormValid(text: string, fieldType: string)
  {
    FormCheck(Strip(text), fieldType)
  }

  /** The per-type checks, on already stripped text. */
  predicate FormCheck(t: string, fieldType: string)
  {
    if fieldType == "person_name" then HasRun(t, IsNameChar, 2)
    else if fieldType == "amount" then AnyChar(t, IsFormAmountChar) && |t| >= 1
    else if fieldType == "address" then AnyChar(t, IsAddressMarker) || |t| >= 4
    else if fieldType == "phone" then AnyChar(t, IsFormPhoneChar) && |t| >= 8
    else if fieldType == "date" then AnyChar(t, IsDateChar)
    else if fieldType == "company" then AnyChar(t, IsCompanyMarker) || |t| >= 3
    else if fieldType == "department" then AnyChar(t, IsDepartmentMarker) || |t| >= 2
    else if fieldType == "email" then '@' in t && '.' in t
    else |t| >= 2
  }

  const FormFieldTypes: set<string> :=
    {"person_name", "amount", "address", "phone", "date", "company", "department", "email"}

  /** Each name's rule, in terms of the characters of the stripped text: a
      name needs two consecutive name characters, an amount a digit or comma,
      an address at least 3 characters and a kanji, a phone number a run of 8
      phone characters, a date a date character, an email address '@' or '＠',
      a company name at least 2 characters; the empty text is rejected and an
      unknown name accepts anything else. */
  lemma SmartCheckSpec(t: string, fieldName: string)
    ensures SmartCheck(t, fieldName) ==> t != []
    ensures t != [] && fieldName !in SmartFieldNames ==> SmartCheck(t, fieldName)
    ensures SmartCheck(t, "氏名") <==> SomeRun(t, IsNameChar, 2)
    ensures SmartCheck(t, "金額") <==> exists k :: 0 <= k < |t| && IsAmountChar(t[k])
    ensures SmartCheck(t, "住所") <==> |t| >= 3 && exists k :: 0 <= k < |t| && IsKanji(t[k])
    ensures SmartCheck(t, "電話番号") <==> SomeRun(t, IsSmartPhoneChar, 8)
    ensures SmartCheck(t, "日付") <==> exists k :: 0 <= k < |t| && IsDateChar(t[k])
    ensures SmartCheck(t, "メールアドレス") <==> '@' in t || '＠' in t
    ensures SmartCheck(t, "会社名") <==> |t| >= 2
  {
    SmartCheckRuns(t);
    SmartCheckChars(t);
  }

  /** The two rules that look for a run of class characters. */
  lemma SmartCheckRuns(t: string)
    ensures SmartCheck(t, "氏名") <==> SomeRun(t, IsNameChar, 2)
    ensures SmartCheck(t, "電話番号") <==> SomeRun(t, IsSmartPhoneChar, 8)
  {
    HasRunSpec(t, IsNameChar, 2);
    HasRunSpec(t, IsSmartPhoneChar, 8);
    if SomeRun(t, IsNameChar, 2) {
      var i :| 0 <= i <= |t| && RunAt(t, IsNameChar, 2, i);
    }
    if SomeRun(t, IsSmartPhoneChar, 8) {
      var i :| 0 <= i <= |t| && RunAt(t, IsSmartPhoneChar, 8, i);
    }
  }

  /** The three rules that look for one character of a class. */
  lemma SmartCheckChars(t: string)
    ensures SmartCheck(t, "金額") <==> exists k :: 0 <= k < |t| && IsAmountChar(t[k])
    ensures SmartCheck(t, "住所") <==> |t| >= 3 && exists k :: 0 <= k < |t| && IsKanji(t[k])
    ensures SmartCheck(t, "日付") <==> exists k :: 0 <= k < |t| && IsDateChar(t[k])
  {
    AnyCharSpec(t, IsAmountChar);
    AnyCharSpec(t, IsKanji);
    AnyCharSpec(t, IsDateChar);
  }

  /** `_is_valid_field_value` of the smart extractor: the rules of
      `SmartCheckSpec` applied to the stripped text. */
  lemma SmartValidSpec(text: string, fieldName: string)
    ensures var t := Strip(text);
            && (SmartValid(text, fieldName) ==> t != [])
            && (t != [] && fieldName !in SmartFieldNames ==> SmartValid(text, fieldName))
            && (SmartValid(text, "氏名") <==> SomeRun(t, IsNameChar, 2))
            && (SmartValid(text, "金額") <==> exists k :: 0 <= k < |t| && IsAmountChar(t[k]))
            && (SmartValid(text, "住所") <==> |t| >= 3 && exists k :: 0 <= k < |t| && IsKanji(t[k]))
            && (SmartValid(text, "電話番号") <==> SomeRun(t, IsSmartPhoneChar, 8))
            && (SmartValid(text, "日付") <==> exists k :: 0 <= k < |t| && IsDateChar(t[k]))
            && (SmartValid(text, "メールアドレス") <==> '@' in t || '＠' in t)
            && (SmartValid(text, "会社名") <==> |t| >= 2)
  {
    SmartCheckSpec(Strip(text), fieldName);
  }

  /** Each type's rule, in terms of the characters of the stripped text: a
      person name needs two consecutive name characters, an amount a digit or
      separator, an address a marker character or at least 4 characters, a
      phone a phone character and at least 8 characters, a date a date
      character, a company a marker or at least 3 characters, a department a
      marker or at least 2 characters, an email both '@' and '.', and any other
      type at least 2 characters. Every rule rejects the empty text. */
  lemma FormCheckSpec(t: string, fieldType: string)
    ensures FormCheck(t, fieldType) ==> t != []
    ensures FormCheck(t, "person_name") <==> SomeRun(t, IsNameChar, 2)
    ensures FormCheck(t, "amount") <==> exists k :: 0 <= k < |t| && IsFormAmountChar(t[k])
    ensures FormCheck(t, "address") <==> (exists k :: 0 <= k < |t| && IsAddressMarker(t[k])) || |t| >= 4
    ensures FormCheck(t, "phone") <==> (exists k :: 0 <= k < |t| && IsFormPhoneChar(t[k])) && |t| >= 8
    ensures FormCheck(t, "date") <==> exists k :: 0 <= k < |t| && IsDateChar(t[k])
    ensures FormCheck(t, "company") <==> (exists k :: 0 <= k < |t| && IsCompanyMarker(t[k])) || |t| >= 3
    ensures FormCheck(t, "department") <==> (exists k :: 0 <= k < |t| && IsDepartmentMarker(t[k])) || |t| >= 2
    ensures FormCheck(t, "email") <==> '@' in t && '.' in t
    ensures fieldType !in FormFieldTypes ==> (FormCheck(t, fieldType) <==> |t| >= 2)
  {
    FormCheckNonEmpty(t, fieldType);
    FormCheckOther(t, fieldType);
    FormCheckEmail(t);
    FormCheckPersonName(t);
    FormCheckCharRule(t, "amount", IsFormAmountChar);
    FormCheckCharRule(t, "address", IsAddressMarker);
    FormCheckCharRule(t, "phone", IsFormPhoneChar);
    FormCheckCharRule(t, "date", IsDateChar);
    FormCheckCharRule(t, "company", IsCompanyMarker);
    FormCheckCharRule(t, "department", IsDepartmentMarker);
  }

  lemma FormCheckNonEmpty(t: string, fieldType: string)
    ensures FormCheck(t, fieldType) ==> t != []
  {
  }

  lemma FormCheckOther(t: string, fieldType: string)
    ensures fieldType !in FormFieldTypes ==> (FormCheck(t, fieldType) <==> |t| >= 2)
  {
  }

  lemma FormCheckEmail(t: string)
    ensures FormCheck(t, "email") <==> '@' in t && '.' in t
  {
  }

  lemma FormCheckPersonName(t: string)
    ensures FormCheck(t, "person_name") <==> SomeRun(t, IsNameChar, 2)
  {
    HasRunSpec(t, IsNameChar, 2);
    if SomeRun(t, IsNameChar, 2) {
      var i :| 0 <= i <= |t| && RunAt(t, IsNameChar, 2, i);
    }
  }

  /** The rules that look for one character of a class. */
  lemma FormCheckCharRule(t: string, fieldType: string, P: char -> bool)
    requires fieldType in {"amount", "address", "phone", "date", "company", "department"}
    requires fieldType == "amount" ==> P == IsFormAmountChar
    requires fieldType == "address" ==> P == IsAddressMarker
    requires fieldType == "phone" ==> P == IsFormPhoneChar
    requires fieldType == "date" ==> P == IsDateChar
    requires fieldType == "company" ==> P == IsCompanyMarker
    requires fieldType == "department" ==> P == IsDepartmentMarker
    ensures fieldType == "amount" ==> (FormCheck(t, fieldType) <==> exists k :: 0 <= k < |t| && P(t[k]))
    ensures fieldType == "address" ==> (FormCheck(t, fieldType) <==> (exists k :: 0 <= k < |t| && P(t[k])) || |t| >= 4)
    ensures fieldType == "phone" ==> (FormCheck(t, fieldType) <==> (exists k :: 0 <= k < |t| && P(t[k])) && |t| >= 8)
    ensures fieldType == "date" ==> (FormCheck(t, fieldType) <==> exists k :: 0 <= k < |t| && P(t[k]))
    ensures fieldType == "company" ==> (FormCheck(t, fieldType) <==> (exists k :: 0 <= k < |t| && P(t[k])) || |t| >= 3)
    ensures fieldType == "department" ==> (FormCheck(t, fieldType) <==> (exists k :: 0 <= k < |t| && P(t[k])) || |t| >= 2)
  {
    AnyCharSpec(t, P);
  }

  /** `_is_valid_field_value` of the form extractor: the rules of
      `FormCheckSpec` applied to the stripped text. */
  lemma FormValidSpec(text: string, fieldType: string)
    ensures var t := Strip(text);
            && (FormValid(text, fieldType) ==> t != [])
            && (FormValid(text, "person_name") <==> SomeRun(t, IsNameChar, 2))
            && (FormValid(text, "amount") <==> exists k :: 0 <= k < |t| && IsFormAmountChar(t[k]))
            && (FormValid(text, "address") <==> (exists k :: 0 <= k < |t| && IsAddressMarker(t[k])) || |t| >= 4)
            && (FormValid(text, "phone") <==> (exists k :: 0 <= k < |t| && IsFormPhoneChar(t[k])) && |t| >= 8)
            && (FormValid(text, "date") <==> exists k :: 0 <= k < |t| && IsDateChar(t[k]))
            && (FormValid(text, "company") <==> (exists k :: 0 <= k < |t| && IsCompanyMarker(t[k])) || |t| >= 3)
            && (FormValid(text, "department") <==> (exists k :: 0 <= k < |t| && IsDepartmentMarker(t[k])) || |t| >= 2)
            && (FormValid(text, "email") <==> '@' in t && '.' in t)
            && (fieldType !in FormFieldTypes ==> (FormValid(text, fieldType) <==> |t| >= 2))
  {
    FormCheckSpec(Strip(text), fieldType);
  }

  /** Both validators strip their input first, so a stripped candidate is judged
      exactly like the raw one. */
  lemma ValidatorsIgnoreSurroundingSpace(text: string, name: string)
    ensures SmartValid(Strip(text), name) == SmartValid(text, name)
    ensures FormValid(Strip(text), name) == FormValid(text, name)
  {
    StripIdempotent(text);
  }
}
