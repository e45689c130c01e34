/** The pattern extractor: each pattern of the source is applied with `findall` semantics
    (leftmost match, non-overlapping, scanning on after the end of each match) to the same
    original text. The scanners below are hand-written equivalents of the regular
    expressions; Python's `\w` and `\d` are read over ASCII. */
module RegexSpy {
  import opened Wrappers
  import opened Strings

  // ---------------------------------------------------------------------------
  // Character classes
  // ---------------------------------------------------------------------------

  /** `\w`, read over ASCII: letters, digits and the underscore. */
  predicate IsWordChar(c: char) { IsAsciiLetter(c) || IsAsciiDigit(c) || c == '_' }

  /** `[\w\.\-_]`, the local part of a UPI handle. */
  predicate IsUpiLocalChar(c: char) { IsWordChar(c) || c == '.' || c == '-' }

  /** `[a-zA-Z0-9_.+-]`, the local part of an e-mail address. */
  predicate IsEmailLocalChar(c: char) {
    IsAsciiLetter(c) || IsAsciiDigit(c) || c == '_' || c == '.' || c == '+' || c == '-'
  }

  /** `[a-zA-Z0-9-]`, a domain label of an e-mail address. */
  predicate IsDomainChar(c: char) { IsAsciiLetter(c) || IsAsciiDigit(c) || c == '-' }

  /** `[a-zA-Z0-9-.]`, what follows the first dot of an e-mail domain. */
  predicate IsTldChar(c: char) { IsDomainChar(c) || c == '.' }

  /** `[-\w.]`, one plain character of a URL host. */
  predicate IsUrlHostChar(c: char) { c == '-' || IsWordChar(c) || c == '.' }

  /** `[\da-fA-F]`. */
  predicate IsHexDigit(c: char) { IsAsciiDigit(c) || 'a' <= c <= 'f' || 'A' <= c <= 'F' }

  /** `[\-\s]`, the optional separator after a country code. */
  predicate IsPhoneSeparator(c: char) { c == '-' || IsSpace(c) }

  predicate AllDigits(s: string) { forall k :: 0 <= k < |s| ==> IsAsciiDigit(s[k]) }

  predicate AllWordChars(s: string) { forall k :: 0 <= k < |s| ==> IsWordChar(s[k]) }

  // ---------------------------------------------------------------------------
  // Runs: the length of the longest prefix of `s` inside one character class
  // ---------------------------------------------------------------------------

  function DigitRun(s: string): (n: nat)
    ensures n <= |s| && (n == |s| || !IsAsciiDigit(s[n]))
    ensures forall k :: 0 <= k < n ==> IsAsciiDigit(s[k])
  {
    if s != [] && IsAsciiDigit(s[0]) then 1 + DigitRun(s[1..]) else 0
  }

  function WordRun(s: string): (n: nat)
    ensures n <= |s| && (n == |s| || !IsWordChar(s[n]))
    ensures forall k :: 0 <= k < n ==> IsWordChar(s[k])
  {
    if s != [] && IsWordChar(s[0]) then 1 + WordRun(s[1..]) else 0
  }

  function UpiLocalRun(s: string): (n: nat)
    ensures n <= |s| && (n == |s| || !IsUpiLocalChar(s[n]))
    ensures forall k :: 0 <= k < n ==> IsUpiLocalChar(s[k])
  {
    if s != [] && IsUpiLocalChar(s[0]) then 1 + UpiLocalRun(s[1..]) else 0
  }

  function EmailLocalRun(s: string): (n: nat)
    ensures n <= |s| && (n == |s| || !IsEmailLocalChar(s[n]))
    ensures forall k :: 0 <= k < n ==> IsEmailLocalChar(s[k])
  {
    if s != [] && IsEmailLocalChar(s[0]) then 1 + EmailLocalRun(s[1..]) else 0
  }

  function DomainRun(s: string): (n: nat)
    ensures n <= |s| && (n == |s| || !IsDomainChar(s[n]))
    ensures forall k :: 0 <= k < n ==> IsDomainChar(s[k])
  {
    if s != [] && IsDomainChar(s[0]) then 1 + DomainRun(s[1..]) else 0
  }

  function TldRun(s: string): (n: nat)
    ensures n <= |s| && (n == |s| || !IsTldChar(s[n]))
    ensures forall k :: 0 <= k < n ==> IsTldChar(s[k])
  {
    if s != [] && IsTldChar(s[0]) then 1 + TldRun(s[1..]) else 0
  }

  function NonSpaceRun(s: string): (n: nat)
    ensures n <= |s| && (n == |s| || IsSpace(s[n]))
    ensures forall k :: 0 <= k < n ==> !IsSpace(s[k])
  {
    if s != [] && !IsSpace(s[0]) then 1 + NonSpaceRun(s[1..]) else 0
  }

  // ---------------------------------------------------------------------------
  // UPI_PATTERN  [\w\.\-_]+@[\w]+
  // ---------------------------------------------------------------------------

  /** The length of the UPI match at the start of `s`, 0 when there is none. The local
      part cannot contain '@', so backtracking never finds a shorter local part, and
      nothing follows the greedy `[\w]+`. */
  function UpiLength(s: string): (n: nat)
    ensures n <= |s|
  {
    var l := UpiLocalRun(s);
    if 1 <= l < |s| && s[l] == '@' then
      var w := WordRun(s[l + 1..]);
      if w >= 1 then l + 1 + w else 0
    else 0
  }

  /** `UPI_PATTERN.findall(s)`. */
  function UpiScan(s: string): seq<string>
    decreases |s|
  {
    if s == [] then []
    else
      var n := UpiLength(s);
      if n > 0 then [s[..n]] + UpiScan(s[n..]) else UpiScan(s[1..])
  }

  /** `r` is a local part, '@' at index `at`, and a non-empty run of word characters. */
  predicate UpiSplitAt(r: string, at: int) {
    0 < at < |r| - 1 && r[at] == '@'
    && (forall k :: 0 <= k < at ==> IsUpiLocalChar(r[k]))
    && (forall k :: at < k < |r| ==> IsWordChar(r[k]))
  }

  predicate IsUpiShaped(r: string) { exists at | 0 <= at < |r| :: UpiSplitAt(r, at) }

  // ---------------------------------------------------------------------------
  // BANK_ACC_PATTERN  \b\d{9,18}\b
  // ---------------------------------------------------------------------------

  /** The length of the bank-account match at the start of `s`, 0 when there is none;
      `afterWord` says whether the character before `s` is a word character. The match
      needs a word boundary before the digits, a maximal run of 9 to 18 digits, and a
      word boundary after it (a longer or letter-followed run fails on backtracking). */
  function BankLength(s: string, afterWord: bool): (n: nat)
    ensures n <= |s|
  {
    var d := DigitRun(s);
    if !afterWord && 9 <= d <= 18 && (d == |s| || !IsWordChar(s[d])) then d else 0
  }

  /** `BANK_ACC_PATTERN.findall(s)`, continuing a text whose previous character is a word
      character iff `afterWord`. */
  function BankScan(s: string, afterWord: bool): seq<string>
    decreases |s|
  {
    if s == [] then []
    else
      var n := BankLength(s, afterWord);
      if n > 0 then [s[..n]] + BankScan(s[n..], true) else BankScan(s[1..], IsWordChar(s[0]))
  }

  predicate IsBankShaped(r: string) { 9 <= |r| <= 18 && AllDigits(r) }

  /** The character before index `j` of `t` is a word character. */
  predicate AfterWord(t: string, j: int) { 0 < j <= |t| && IsWordChar(t[j - 1]) }

  /** A bank-account match starts at index `j` of `t`. */
  predicate BankAt(t: string, j: nat) { j <= |t| && BankLength(t[j..], AfterWord(t, j)) > 0 }

  /** The text of the bank-account match at index `j` of `t`. */
  function BankMatch(t: string, j: nat): string
    requires j <= |t|
  {
    t[j..j + BankLength(t[j..], AfterWord(t, j))]
  }

  // ---------------------------------------------------------------------------
  // IFSC_PATTERN  [A-Z]{4}0[A-Z0-9]{6}
  // ---------------------------------------------------------------------------

  predicate IsIfsc(r: string) {
    |r| == 11
    && (forall k :: 0 <= k < 4 ==> IsAsciiUpper(r[k]))
    && r[4] == '0'
    && (forall k :: 5 <= k < 11 ==> IsAsciiUpper(r[k]) || IsAsciiDigit(r[k]))
  }

  function IfscLength(s: string): (n: nat)
    ensures n <= |s|
  {
    if |s| >= 11 && IsIfsc(s[..11]) then 11 else 0
  }

  /** `IFSC_PATTERN.findall(s)`. */
  function IfscScan(s: string): seq<string>
    decreases |s|
  {
    if s == [] then []
    else
      var n := IfscLength(s);
      if n > 0 then [s[..n]] + IfscScan(s[n..]) else IfscScan(s[1..])
  }

  predicate IfscAt(t: string, j: nat) { j + 11 <= |t| && IsIfsc(t[j..j + 11]) }

  // ---------------------------------------------------------------------------
  // PHONE_PATTERN  (\+?91[\-\s]?)?[6-9]\d{9}
  // ---------------------------------------------------------------------------

  /** `[6-9]\d{9}` at the start of `s`. */
  predicate IsMobileNumberAt(s: string) {
    |s| >= 10 && '6' <= s[0] <= '9' && AllDigits(s[1..10])
  }

  predicate HasCode91(s: string) { |s| >= 2 && s[0] == '9' && s[1] == '1' }

  /** The phone match at the start of `s`, in the order the backtracking matcher tries the
      alternatives: with '+' and separator, with '+', with separator, bare "91", and no
      country code. It yields the text of the capture group (what `findall` returns for a
      pattern with one group, "" when the group did not take part) and the match length. */
  function PhoneMatch(s: string): (m: Option<(string, nat)>)
    ensures m.Some? ==> 0 < m.value.1 <= |s|
  {
    if |s| >= 4 && s[0] == '+' && HasCode91(s[1..]) && IsPhoneSeparator(s[3]) && IsMobileNumberAt(s[4..]) then
      Some((s[..4], 14))
    else if |s| >= 3 && s[0] == '+' && HasCode91(s[1..]) && IsMobileNumberAt(s[3..]) then
      Some((s[..3], 13))
    else if |s| >= 3 && HasCode91(s) && IsPhoneSeparator(s[2]) && IsMobileNumberAt(s[3..]) then
      Some((s[..3], 13))
    else if HasCode91(s) && IsMobileNumberAt(s[2..]) then
      Some((s[..2], 12))
    else if IsMobileNumberAt(s) then
      Some(("", 10))
    else
      None
  }

  /** `PHONE_PATTERN.findall(s)`: one capture-group text per match. */
  function PhoneScan(s: string): seq<string>
    decreases |s|
  {
    if s == [] then []
    else
      match PhoneMatch(s)
      case Some((group, n)) => [group] + PhoneScan(s[n..])
      case None => PhoneScan(s[1..])
  }

  /** The possible texts of the capture group `(\+?91[\-\s]?)`, or "" when it is absent. */
  predicate IsPhoneGroup(r: string) {
    r == "" || r == "91" || r == "+91"
    || (|r| == 3 && r[..2] == "91" && IsPhoneSeparator(r[2]))
    || (|r| == 4 && r[..3] == "+91" && IsPhoneSeparator(r[3]))
  }

  // ---------------------------------------------------------------------------
  // URL_PATTERN  https?://(?:[-\w.]|(?:%[\da-fA-F]{2}))+[^\s]*
  // ---------------------------------------------------------------------------

  /** The length of "http://" or "https://" at the start of `s`, 0 when neither. */
  function SchemeLength(s: string): (k: nat)
    ensures k == 0 || k == 7 || k == 8
    ensures k <= |s|
  {
    if |s| >= 7 && s[..7] == "http://" then 7
    else if |s| >= 8 && s[..8] == "https://" then 8
    else 0
  }

  /** The length of the URL match at the start of `s`, 0 when there is none. After the
      scheme one host unit is needed (a host character or a %-escape); every unit is a
      non-whitespace character, so the greedy `[^\s]*` carries the match up to the next
      whitespace. */
  function UrlLength(s: string): (n: nat)
    ensures n <= |s|
  {
    var k := SchemeLength(s);
    if k > 0 && k < |s|
       && (IsUrlHostChar(s[k]) || (s[k] == '%' && k + 2 < |s| && IsHexDigit(s[k + 1]) && IsHexDigit(s[k + 2])))
    then k + NonSpaceRun(s[k..])
    else 0
  }

  /** `URL_PATTERN.findall(s)`. */
  function UrlScan(s: string): seq<string>
    decreases |s|
  {
    if s == [] then []
    else
      var n := UrlLength(s);
      if n > 0 then [s[..n]] + UrlScan(s[n..]) else UrlScan(s[1..])
  }

  predicate IsUrlShaped(r: string) {
    ((|r| > 7 && r[..7] == "http://") || (|r| > 8 && r[..8] == "https://")) && NoSpace(r)
  }

  // ---------------------------------------------------------------------------
  // EMAIL_PATTERN  [a-zA-Z0-9_.+-]+@[a-zA-Z0-9-]+\.[a-zA-Z0-9-.]+
  // ---------------------------------------------------------------------------

  /** The length of the e-mail match at the start of `s`, 0 when there is none. None of
      the first two classes contains the character that must follow it, so backtracking
      never shortens them. */
  function EmailLength(s: string): (n: nat)
    ensures n <= |s|
  {
    var l := EmailLocalRun(s);
    if 1 <= l < |s| && s[l] == '@' then
      var d := DomainRun(s[l + 1..]);
      if d >= 1 && l + 1 + d < |s| && s[l + 1 + d] == '.' then
        var k := TldRun(s[l + 2 + d..]);
        if k >= 1 then l + 2 + d + k else 0
      else 0
    else 0
  }

  /** `EMAIL_PATTERN.findall(s)`. */
  function EmailScan(s: string): seq<string>
    decreases |s|
  {
    if s == [] then []
    else
      var n := EmailLength(s);
      if n > 0 then [s[..n]] + EmailScan(s[n..]) else EmailScan(s[1..])
  }

  /** `r` is local part, '@' at `at`, domain label, '.' at `dot`, and the rest. */
  predicate EmailSplitAt(r: string, at: int, dot: int) {
    0 < at && at + 1 < dot < |r| - 1 && r[at] == '@' && r[dot] == '.'
    && (forall k :: 0 <= k < at ==> IsEmailLocalChar(r[k]))
    && (forall k :: at < k < dot ==> IsDomainChar(r[k]))
    && (forall k :: dot < k < |r| ==> IsTldChar(r[k]))
  }

  predicate IsEmailShaped(r: string) { exists at, dot | 0 <= at < dot < |r| :: EmailSplitAt(r, at, dot) }

  // ---------------------------------------------------------------------------
  // SUSPICIOUS_KEYWORDS
  // ---------------------------------------------------------------------------

  const SuspiciousKeywords: seq<string> := [
    "blocked", "suspended", "verify", "kyc", "alert", "urgent",
    "expire", "click here", "refund", "lottery", "winner", "prize"
  ]

  /** `[kw for kw in vocab if kw.lower() in lowered]`. */
  function KeywordsIn(vocab: seq<string>, lowered: string): seq<string>
  {
    if vocab == [] then []
    else (if Contains(lowered, Lower(vocab[0])) then [vocab[0]] else []) + KeywordsIn(vocab[1..], lowered)
  }

  /** `a` is `b` with some elements left out, the rest kept in order. */
  predicate IsSubsequence<T(==)>(a: seq<T>, b: seq<T>)
    decreases |b|
  {
    a == [] || (b != [] && (if a[0] == b[0] then IsSubsequence(a[1..], b[1..]) else IsSubsequence(a, b[1..])))
  }

  predicate Distinct<T(==)>(s: seq<T>) { forall i, j :: 0 <= i < j < |s| ==> s[i] != s[j] }

  // ---------------------------------------------------------------------------
  // extract_intelligence
  // ---------------------------------------------------------------------------

  /** The dictionary `extract_intelligence` returns: empty for empty text, otherwise one
      list per field, keyed "upi", "bank_account", "ifsc", "phone", "url", "email" and
      "suspicious_keywords". */
  datatype Intelligence =
    | NoText
    | Fields(upi: seq<string>, bankAccount: seq<string>, ifsc: seq<string>, phone: seq<string>,
             url: seq<string>, email: seq<string>, suspiciousKeywords: seq<string>)

  /** `RegexSpy.extract_intelligence(text)`: every pattern applied to the same original
      text, with no masking between fields. */
  function ExtractIntelligence(text: string): (r: Intelligence)
    ensures r.NoText? <==> text == ""
  {
    if text == "" then NoText
    else Fields(
      UpiScan(text), BankScan(text, false), IfscScan(text), PhoneScan(text),
      UrlScan(text), EmailScan(text), KeywordsIn(SuspiciousKeywords, Lower(text)))
  }

  // ===========================================================================
  // Lemmas
  // ===========================================================================

  lemma ContainsSuffix(s: string, n: nat, r: string)
    requires n <= |s| && Contains(s[n..], r)
    ensures Contains(s, r)
  {
    var i: int :| OccursAt(s[n..], r, i);
    assert OccursAt(s[n..], r, i);
    assert s[n + i..n + i + |r|] == s[n..][i..i + |r|];
    assert OccursAt(s, r, n + i);
  }

  lemma ContainsPrefix(s: string, n: nat)
    requires n <= |s|
    ensures Contains(s, s[..n])
  {
    assert OccursAt(s, s[..n], 0);
  }

  /** What a scan finds in a suffix of `s` occurs in `s`. */
  lemma ContainsAllSuffix(s: string, n: nat, found: seq<string>)
    requires n <= |s| && forall r :: r in found ==> Contains(s[n..], r)
    ensures forall r :: r in found ==> Contains(s, r)
  {
    forall r | r in found ensures Contains(s, r) { ContainsSuffix(s, n, r); }
  }

  // ---- UPI ----

  lemma UpiHeadShape(s: string)
    requires UpiLength(s) > 0
    ensures IsUpiShaped(s[..UpiLength(s)])
  {
    var n := UpiLength(s);
    var l := UpiLocalRun(s);
    forall k | l < k < n ensures IsWordChar(s[..n][k]) {
      assert s[..n][k] == s[l..][1..][k - l - 1];
    }
    assert UpiSplitAt(s[..n], l);
  }

  /** Every UPI result is a local part, '@' and a word, and occurs in the text. */
  lemma {:induction false} UpiScanSound(s: string)
    ensures forall r :: r in UpiScan(s) ==> IsUpiShaped(r) && Contains(s, r)
    decreases |s|
  {
    if s != [] {
      var n := UpiLength(s);
      if n > 0 {
        UpiHeadShape(s);
        ContainsPrefix(s, n);
        UpiScanSound(s[n..]);
        ContainsAllSuffix(s, n, UpiScan(s[n..]));
      } else {
        UpiScanSound(s[1..]);
        ContainsAllSuffix(s, 1, UpiScan(s[1..]));
      }
    }
  }

  /** A character no UPI match contains. */
  predicate IsUpiBreak(c: char) { !IsUpiLocalChar(c) && c != '@' }

  /** A UPI match holds no break character. */
  lemma UpiMatchHasNoBreak(s: string, k: nat)
    requires k < UpiLength(s)
    ensures !IsUpiBreak(s[k])
  {
    var l := UpiLocalRun(s);
    if k > l {
      assert s[k] == s[l..][1..][k - l - 1];
    }
  }

  predicate UpiAt(t: string, j: nat) { j <= |t| && UpiLength(t[j..]) > 0 }

  function UpiMatch(t: string, j: nat): string
    requires j <= |t|
  {
    t[j..j + UpiLength(t[j..])]
  }

  /** Where the UPI scan goes on after looking at index `i`. */
  function UpiNext(t: string, i: nat): (k: nat)
    requires i < |t|
    ensures i < k <= |t|
  {
    if UpiLength(t[i..]) > 0 then i + UpiLength(t[i..]) else i + 1
  }

  lemma UpiScanHead(t: string, i: nat)
    requires UpiAt(t, i)
    ensures UpiMatch(t, i) in UpiScan(t[i..])
  {
    assert t[i..][..UpiLength(t[i..])] == UpiMatch(t, i);
  }

  lemma UpiScanStep(t: string, i: nat, m: string)
    requires i < |t| && m in UpiScan(t[UpiNext(t, i)..])
    ensures m in UpiScan(t[i..])
  {
    if UpiLength(t[i..]) > 0 {
      assert t[i..][UpiLength(t[i..])..] == t[UpiNext(t, i)..];
    } else {
      assert t[i..][1..] == t[UpiNext(t, i)..];
    }
  }

  lemma UpiScanNotPast(t: string, i: nat, j: nat)
    requires i < j <= |t| && IsUpiBreak(t[j - 1])
    ensures UpiNext(t, i) <= j
  {
    if j < i + UpiLength(t[i..]) {
      UpiMatchHasNoBreak(t[i..], j - 1 - i);
      assert false;
    }
  }

  lemma {:induction false} UpiScanFinds(t: string, i: nat, j: nat)
    requires i <= j && UpiAt(t, j) && (j == 0 || IsUpiBreak(t[j - 1]))
    ensures UpiMatch(t, j) in UpiScan(t[i..])
    decreases |t| - i
  {
    if i == j {
      UpiScanHead(t, i);
    } else {
      UpiScanNotPast(t, i, j);
      UpiScanFinds(t, UpiNext(t, i), j);
      UpiScanStep(t, i, UpiMatch(t, j));
    }
  }

  /** A UPI match that starts at the start of the text or right after a character no
      match can hold (whitespace, punctuation other than '.', '-' and '@') is reported. */
  lemma UpiScanComplete(t: string, j: nat)
    requires UpiAt(t, j) && (j == 0 || IsUpiBreak(t[j - 1]))
    ensures UpiMatch(t, j) in UpiScan(t)
  {
    UpiScanFinds(t, 0, j);
    assert t[0..] == t;
  }

  // ---- bank account ----

  /** Every bank-account result is a run of 9 to 18 digits and occurs in the text. */
  lemma {:induction false} BankScanSound(s: string, afterWord: bool)
    ensures forall r :: r in BankScan(s, afterWord) ==> IsBankShaped(r) && Contains(s, r)
    decreases |s|
  {
    if s != [] {
      var n := BankLength(s, afterWord);
      if n > 0 {
        assert AllDigits(s[..n]);
        ContainsPrefix(s, n);
        BankScanSound(s[n..], true);
        ContainsAllSuffix(s, n, BankScan(s[n..], true));
      } else {
        BankScanSound(s[1..], IsWordChar(s[0]));
        ContainsAllSuffix(s, 1, BankScan(s[1..], IsWordChar(s[0])));
      }
    }
  }

  /** Where the bank-account scan goes on after looking at index `i`. */
  function BankNext(t: string, i: nat): (k: nat)
    requires i < |t|
    ensures i < k <= |t|
  {
    if BankAt(t, i) then i + BankLength(t[i..], AfterWord(t, i)) else i + 1
  }

  /** One step of the bank-account scan, in terms of the indices of `t`. */
  lemma BankScanStep(t: string, i: nat)
    requires i < |t|
    ensures BankScan(t[i..], AfterWord(t, i))
         == (if BankAt(t, i) then [BankMatch(t, i)] else []) + BankScan(t[BankNext(t, i)..], AfterWord(t, BankNext(t, i)))
  {
    var s := t[i..];
    var n := BankLength(s, AfterWord(t, i));
    if n > 0 {
      assert s[..n] == BankMatch(t, i);
      assert s[n..] == t[i + n..];
      assert IsAsciiDigit(s[n - 1]);
    } else {
      assert s[1..] == t[i + 1..];
    }
  }

  lemma {:induction false} BankScanOnlyMatches(t: string, i: nat, r: string)
    requires i <= |t| && r in BankScan(t[i..], AfterWord(t, i))
    ensures exists j :: i <= j && BankAt(t, j) && r == BankMatch(t, j)
    decreases |t| - i
  {
    BankScanStep(t, i);
    if !(BankAt(t, i) && r == BankMatch(t, i)) {
      BankScanOnlyMatches(t, BankNext(t, i), r);
    }
  }

  /** No bank-account match starts inside another one: the digits before it are word
      characters. */
  lemma BankScanNotPast(t: string, i: nat, j: nat)
    requires i < j && BankAt(t, j)
    ensures BankNext(t, i) <= j
  {
    if BankAt(t, i) && j < i + BankLength(t[i..], AfterWord(t, i)) {
      assert false;
    }
  }

  lemma {:induction false} BankScanFindsAll(t: string, i: nat, j: nat)
    requires i <= j && BankAt(t, j)
    ensures BankMatch(t, j) in BankScan(t[i..], AfterWord(t, i))
    decreases |t| - i
  {
    BankScanStep(t, i);
    if i < j {
      BankScanNotPast(t, i, j);
      BankScanFindsAll(t, BankNext(t, i), j);
    }
  }

  /** The bank-account field is exactly the list of \b-bounded 9-to-18-digit runs of the
      text: a value is reported iff such a run exists at some index. */
  lemma BankScanExact(t: string, r: string)
    ensures r in BankScan(t, false) <==> exists j :: BankAt(t, j) && r == BankMatch(t, j)
  {
    assert t[0..] == t;
    assert !AfterWord(t, 0);
    if r in BankScan(t, false) {
      BankScanOnlyMatches(t, 0, r);
    }
    if exists j :: BankAt(t, j) && r == BankMatch(t, j) {
      var j :| BankAt(t, j) && r == BankMatch(t, j);
      BankScanFindsAll(t, 0, j);
    }
  }

  // ---- IFSC ----

  /** Every IFSC result has the 4-letter, '0', 6-character shape and occurs in the text. */
  lemma {:induction false} IfscScanSound(s: string)
    ensures forall r :: r in IfscScan(s) ==> IsIfsc(r) && Contains(s, r)
    decreases |s|
  {
    if s != [] {
      var n := IfscLength(s);
      if n > 0 {
        ContainsPrefix(s, n);
        IfscScanSound(s[n..]);
        ContainsAllSuffix(s, n, IfscScan(s[n..]));
      } else {
        IfscScanSound(s[1..]);
        ContainsAllSuffix(s, 1, IfscScan(s[1..]));
      }
    }
  }

  lemma {:induction false} IfscScanFinds(s: string, j: nat)
    requires IfscAt(s, j)
    ensures IfscScan(s) != []
    decreases |s|
  {
    if IfscLength(s) == 0 {
      assert j > 0 by { assert s[..11] == s[0..11]; }
      assert IfscAt(s[1..], j - 1) by { assert s[1..][j - 1..j - 1 + 11] == s[j..j + 11]; }
      IfscScanFinds(s[1..], j - 1);
    }
  }

  /** The IFSC field is non-empty iff an IFSC-shaped window occurs somewhere in the text
      (case-sensitively: the letters must be upper case). */
  lemma IfscFoundIff(t: string)
    ensures IfscScan(t) != [] <==> exists j :: IfscAt(t, j)
  {
    if IfscScan(t) != [] {
      IfscScanSound(t);
      var r := IfscScan(t)[0];
      assert IsIfsc(r) && Contains(t, r);
      var j: int :| OccursAt(t, r, j);
      assert OccursAt(t, r, j);
      assert IfscAt(t, j);
    }
    if exists j :: IfscAt(t, j) {
      var j :| IfscAt(t, j);
      IfscScanFinds(t, j);
    }
  }

  // ---- phone ----

  lemma PhoneHeadGroup(s: string)
    requires PhoneMatch(s).Some?
    ensures IsPhoneGroup(PhoneMatch(s).value.0) && |PhoneMatch(s).value.0| <= 4
  {
    var group := PhoneMatch(s).value.0;
    if |group| == 3 && group[0] == '+' {
      assert group == "+91";
    } else if |group| == 2 {
      assert group == "91";
    }
  }

  /** Every phone result is the text of the country-code group ("", "91", "+91", or one of
      those two with a separator), never a whole number. */
  lemma {:induction false} PhoneScanGroups(s: string)
    ensures forall r :: r in PhoneScan(s) ==> IsPhoneGroup(r) && |r| <= 4
    decreases |s|
  {
    if s != [] {
      match PhoneMatch(s)
      case Some((group, n)) =>
        PhoneHeadGroup(s);
        PhoneScanGroups(s[n..]);
      case None =>
        PhoneScanGroups(s[1..]);
    }
  }

  // ---- URL ----

  /** A URL match holds no whitespace. */
  lemma UrlMatchHasNoSpace(s: string, k: nat)
    requires k < UrlLength(s)
    ensures !IsSpace(s[k])
  {
    var c := SchemeLength(s);
    if k >= c {
      assert s[k] == s[c..][k - c];
    } else if c == 7 {
      assert s[k] == s[..7][k];
    } else {
      assert s[k] == s[..8][k];
    }
  }

  lemma UrlHeadShape(s: string)
    requires UrlLength(s) > 0
    ensures IsUrlShaped(s[..UrlLength(s)])
  {
    var n := UrlLength(s);
    forall m | 0 <= m < n ensures !IsSpace(s[..n][m]) {
      UrlMatchHasNoSpace(s, m);
    }
    assert s[..n][..SchemeLength(s)] == s[..SchemeLength(s)];
  }

  /** Every URL result starts with a scheme and runs to the next whitespace. */
  lemma {:induction false} UrlScanSound(s: string)
    ensures forall r :: r in UrlScan(s) ==> IsUrlShaped(r) && Contains(s, r)
    decreases |s|
  {
    if s != [] {
      var n := UrlLength(s);
      if n > 0 {
        UrlHeadShape(s);
        ContainsPrefix(s, n);
        UrlScanSound(s[n..]);
        ContainsAllSuffix(s, n, UrlScan(s[n..]));
      } else {
        UrlScanSound(s[1..]);
        ContainsAllSuffix(s, 1, UrlScan(s[1..]));
      }
    }
  }

  predicate UrlAt(t: string, j: nat) { j <= |t| && UrlLength(t[j..]) > 0 }

  function UrlMatch(t: string, j: nat): string
    requires j <= |t|
  {
    t[j..j + UrlLength(t[j..])]
  }

  /** Where the URL scan goes on after looking at index `i`. */
  function UrlNext(t: string, i: nat): (k: nat)
    requires i < |t|
    ensures i < k <= |t|
  {
    if UrlLength(t[i..]) > 0 then i + UrlLength(t[i..]) else i + 1
  }

  lemma UrlScanHead(t: string, i: nat)
    requires UrlAt(t, i)
    ensures UrlMatch(t, i) in UrlScan(t[i..])
  {
    assert t[i..][..UrlLength(t[i..])] == UrlMatch(t, i);
  }

  lemma UrlScanStep(t: string, i: nat, m: string)
    requires i < |t| && m in UrlScan(t[UrlNext(t, i)..])
    ensures m in UrlScan(t[i..])
  {
    if UrlLength(t[i..]) > 0 {
      assert t[i..][UrlLength(t[i..])..] == t[UrlNext(t, i)..];
    } else {
      assert t[i..][1..] == t[UrlNext(t, i)..];
    }
  }

  lemma UrlScanNotPast(t: string, i: nat, j: nat)
    requires i < j <= |t| && IsSpace(t[j - 1])
    ensures UrlNext(t, i) <= j
  {
    if j < i + UrlLength(t[i..]) {
      UrlMatchHasNoSpace(t[i..], j - 1 - i);
      assert false;
    }
  }

  lemma {:induction false} UrlScanFinds(t: string, i: nat, j: nat)
    requires i <= j && UrlAt(t, j) && (j == 0 || IsSpace(t[j - 1]))
    ensures UrlMatch(t, j) in UrlScan(t[i..])
    decreases |t| - i
  {
    if i == j {
      UrlScanHead(t, i);
    } else {
      UrlScanNotPast(t, i, j);
      UrlScanFinds(t, UrlNext(t, i), j);
      UrlScanStep(t, i, UrlMatch(t, j));
    }
  }

  /** A URL match that starts at the start of the text or right after whitespace is
      reported. */
  lemma UrlScanComplete(t: string, j: nat)
    requires UrlAt(t, j) && (j == 0 || IsSpace(t[j - 1]))
    ensures UrlMatch(t, j) in UrlScan(t)
  {
    UrlScanFinds(t, 0, j);
    assert t[0..] == t;
  }

  // ---- e-mail ----

  lemma EmailHeadShape(s: string)
    requires EmailLength(s) > 0
    ensures IsEmailShaped(s[..EmailLength(s)])
  {
    var n := EmailLength(s);
    var l := EmailLocalRun(s);
    var d := DomainRun(s[l + 1..]);
    forall m | l < m < l + 1 + d ensures IsDomainChar(s[..n][m]) {
      assert s[..n][m] == s[l + 1..][m - l - 1];
    }
    forall m | l + 1 + d < m < n ensures IsTldChar(s[..n][m]) {
      assert s[..n][m] == s[l + 2 + d..][m - l - 2 - d];
    }
    assert EmailSplitAt(s[..n], l, l + 1 + d);
  }

  /** Every e-mail result is local part '@' label '.' rest, and occurs in the text. */
  lemma {:induction false} EmailScanSound(s: string)
    ensures forall r :: r in EmailScan(s) ==> IsEmailShaped(r) && Contains(s, r)
    decreases |s|
  {
    if s != [] {
      var n := EmailLength(s);
      if n > 0 {
        EmailHeadShape(s);
        ContainsPrefix(s, n);
        EmailScanSound(s[n..]);
        ContainsAllSuffix(s, n, EmailScan(s[n..]));
      } else {
        EmailScanSound(s[1..]);
        ContainsAllSuffix(s, 1, EmailScan(s[1..]));
      }
    }
  }

  // ---- keywords ----

  /** The keyword list is the vocabulary filtered by case-insensitive substring test: a
      word is listed iff it is in the vocabulary and occurs in the lowered text, in
      vocabulary order, without repetition when the vocabulary has none. */
  lemma {:induction false} KeywordsInSpec(vocab: seq<string>, lowered: string)
    ensures forall w :: w in KeywordsIn(vocab, lowered) <==> w in vocab && Contains(lowered, Lower(w))
    ensures IsSubsequence(KeywordsIn(vocab, lowered), vocab)
    ensures Distinct(vocab) ==> Distinct(KeywordsIn(vocab, lowered))
  {
    if vocab != [] {
      KeywordsInSpec(vocab[1..], lowered);
      var rest := KeywordsIn(vocab[1..], lowered);
      var r := KeywordsIn(vocab, lowered);
      if Contains(lowered, Lower(vocab[0])) {
        assert r == [vocab[0]] + rest;
        assert r[1..] == rest;
      } else {
        assert r == rest;
        SubsequenceSkip(rest, vocab);
      }
      if Distinct(vocab) {
        assert Distinct(vocab[1..]);
        assert vocab[0] !in vocab[1..];
      }
    }
  }

  lemma {:induction false} SubsequenceSkip<T>(a: seq<T>, b: seq<T>)
    requires b != [] && IsSubsequence(a, b[1..])
    ensures IsSubsequence(a, b)
    decreases |b|, 0
  {
    if a != [] && a[0] == b[0] {
      SubsequenceDrop(a, b[1..]);
    }
  }

  lemma {:induction false} SubsequenceDrop<T>(a: seq<T>, b: seq<T>)
    requires a != [] && IsSubsequence(a, b)
    ensures IsSubsequence(a[1..], b)
    decreases |b|, 1
  {
    if a[0] == b[0] {
      SubsequenceSkip(a[1..], b);
    } else {
      SubsequenceDrop(a, b[1..]);
      SubsequenceSkip(a[1..], b);
    }
  }

  /** No keyword is listed twice: their first letters already differ. */
  lemma SuspiciousKeywordsDistinct()
    ensures Distinct(SuspiciousKeywords)
  {
    var firsts := "bsvkauecrlwp";
    assert forall i :: 0 <= i < |SuspiciousKeywords| ==> |SuspiciousKeywords[i]| > 0 && SuspiciousKeywords[i][0] == firsts[i];
    assert Distinct(firsts);
  }

  /** The suspicious-keyword field: the keywords occurring in the text (compared in lower
      case), in vocabulary order, each at most once. */
  lemma SuspiciousKeywordsSpec(text: string)
    requires text != ""
    ensures var r := ExtractIntelligence(text).suspiciousKeywords;
      && (forall w :: w in r <==> w in SuspiciousKeywords && Contains(Lower(text), Lower(w)))
      && IsSubsequence(r, SuspiciousKeywords)
      && Distinct(r)
  {
    KeywordsInSpec(SuspiciousKeywords, Lower(text));
    SuspiciousKeywordsDistinct();
  }

  /** For non-empty text every field holds only values of its pattern's shape, each found
      in the text itself, and the phone field holds group texts only. */
  lemma ExtractedShapes(text: string)
    requires text != ""
    ensures var r := ExtractIntelligence(text);
      && (forall v :: v in r.upi ==> IsUpiShaped(v) && Contains(text, v))
      && (forall v :: v in r.bankAccount ==> IsBankShaped(v) && Contains(text, v))
      && (forall v :: v in r.ifsc ==> IsIfsc(v) && Contains(text, v))
      && (forall v :: v in r.phone ==> IsPhoneGroup(v))
      && (forall v :: v in r.url ==> IsUrlShaped(v) && Contains(text, v))
      && (forall v :: v in r.email ==> IsEmailShaped(v) && Contains(text, v))
  {
    UpiScanSound(text);
    BankScanSound(text, false);
    IfscScanSound(text);
    PhoneScanGroups(text);
    UrlScanSound(text);
    EmailScanSound(text);
  }
}
