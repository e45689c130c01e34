/** The pattern extractor on the sentences its own tests and scenarios use. */
module RegexSpyExamples {
  import opened Wrappers
  import opened Strings
  import opened RegexSpy

  const KycHead: string := "Your KYC is pending. Please send UPI: "
  const KycHandle: string := "ram123@okhdfc"
  const KycTail: string := ", " + "addhar_number is - 123445, immediately. Call +919876543210"

  /** The sample sentence of the extraction test. */
  const KycSample: string := KycHead + (KycHandle + KycTail)

  lemma KycHandleLength()
    ensures UpiLength(KycHandle + KycTail) == |KycHandle|
  {
    var s := KycHandle + KycTail;
    assert forall k :: 0 <= k < 13 ==> s[k] == KycHandle[k];
    assert s[13] == KycTail[0] == ',';
    assert s[6] == '@';
    assert forall k :: 0 <= k < 6 ==> IsUpiLocalChar(s[k]);
    assert UpiLocalRun(s) == 6;
    var w := s[7..];
    assert forall k :: 0 <= k < 6 ==> IsWordChar(w[k]);
    assert WordRun(w) == 6;
  }

  /** The handle in the sample sentence is reported in the UPI field: it follows a space,
      so the scan cannot have skipped over its start. */
  lemma KycSampleYieldsHandle()
    ensures "ram123@okhdfc" in ExtractIntelligence(KycSample).upi
  {
    KycScanFindsHandle();
  }

  lemma KycScanFindsHandle()
    ensures KycHandle in UpiScan(KycSample)
  {
    var rest := KycHandle + KycTail;
    assert |KycHead| == 38 && IsUpiBreak(KycHead[37]);
    KycHandleLength();
    HandleAfterBreak(KycHead, rest);
    assert rest[..13] == KycHandle;
  }

  /** A handle at the very start of `rest` is found in `head + rest` when `head` ends with
      a character that cannot extend it. */
  lemma HandleAfterBreak(head: string, rest: string)
    requires |head| > 0 && IsUpiBreak(head[|head| - 1]) && UpiLength(rest) > 0
    ensures rest[..UpiLength(rest)] in UpiScan(head + rest)
  {
    var t := head + rest;
    assert t[|head|..] == rest && t[|head| - 1] == head[|head| - 1];
    var n := UpiLength(rest);
    assert t[|head|..|head| + n] == rest[..n];
    assert UpiMatch(t, |head|) == rest[..n];
    UpiScanComplete(t, |head|);
  }

  /** A mobile number with a country code yields the code, the capture group's text, in the
      phone field, not the number. */
  lemma PhoneFieldHoldsGroup()
    ensures ExtractIntelligence("+919876543210").phone == ["+91"]
  {
    CodedMobileAsPhone();
  }

  lemma CodedMobileAsPhone()
    ensures PhoneScan("+919876543210") == ["+91"]
  {
    var t := "+919876543210";
    var number := t[3..];
    assert forall k :: 0 <= k < 10 ==> IsAsciiDigit(number[k]);
    assert AllDigits(number[1..10]);
    assert !IsPhoneSeparator(t[3]);
    assert PhoneMatch(t) == Some((t[..3], 13));
    assert t[..3] == "+91";
    assert PhoneScan(t[13..]) == [];
  }

  /** The fields are computed independently: a bare ten-digit mobile number is reported as
      a bank account, and in the phone field as an empty group. */
  lemma FieldsIndependent()
    ensures ExtractIntelligence("9876543210").bankAccount == ["9876543210"]
    ensures ExtractIntelligence("9876543210").phone == [""]
  {
    MobileAsBank();
    MobileAsPhone();
  }

  lemma MobileAsBank()
    ensures BankScan("9876543210", false) == ["9876543210"]
  {
    var t := "9876543210";
    assert forall k :: 0 <= k < 10 ==> IsAsciiDigit(t[k]);
    DigitsAloneAreAccount(t);
  }

  /** A text that is nothing but 9 to 18 digits is one bank-account match. */
  lemma DigitsAloneAreAccount(t: string)
    requires 9 <= |t| <= 18 && AllDigits(t)
    ensures BankScan(t, false) == [t]
  {
    assert DigitRun(t) == |t|;
    assert BankLength(t, false) == |t|;
    assert t[..|t|] == t && t[|t|..] == [];
  }

  lemma MobileAsPhone()
    ensures PhoneScan("9876543210") == [""]
  {
    var t := "9876543210";
    assert !HasCode91(t);
    assert AllDigits(t[1..10]);
    assert PhoneMatch(t) == Some(("", 10));
    assert PhoneScan(t[10..]) == [];
  }

  const PhishingHead: string := "Your bank account is " + "blocked" + ". Click here to verify: "
  const PhishingHost: string := "phishing.com" + "/verify"
  const PhishingLink: string := "http://" + PhishingHost

  /** The phishing message of the scam simulation. */
  const PhishingSample: string := PhishingHead + PhishingLink

  lemma PhishingLinkLength()
    ensures UrlLength(PhishingLink) == |PhishingLink|
  {
    var u := PhishingLink;
    assert u[..7] == "http://";
    assert SchemeLength(u) == 7;
    assert u[7..] == PhishingHost;
    assert NoSpace("phishing.com") && NoSpace("/verify");
    assert NoSpace(PhishingHost);
    assert NonSpaceRun(PhishingHost) == |PhishingHost|;
  }

  lemma PhishingHasBlocked()
    ensures Contains(Lower(PhishingSample), Lower("blocked"))
  {
    var t := PhishingSample;
    assert forall k :: 21 <= k < 28 ==> t[k] == "blocked"[k - 21];
    assert forall k :: 0 <= k < 7 ==> Lower(t)[21..28][k] == Lower("blocked")[k];
    assert Lower(t)[21..28] == Lower("blocked");
    assert OccursAt(Lower(t), Lower("blocked"), 21);
  }

  lemma PhishingLinkAt(t: string)
    requires t == PhishingSample
    ensures UrlAt(t, 52) && IsSpace(t[51]) && UrlMatch(t, 52) == PhishingLink
  {
    assert t[52..] == PhishingLink;
    assert t[51] == PhishingHead[51] == ' ';
    PhishingLinkLength();
  }

  lemma PhishingLinkScanned(t: string)
    requires t == PhishingSample
    ensures PhishingLink in UrlScan(t)
  {
    PhishingLinkAt(t);
    UrlScanComplete(t, 52);
  }

  /** The phishing message yields its link in the URL field. */
  lemma PhishingSampleYieldsLink()
    ensures PhishingLink in ExtractIntelligence(PhishingSample).url
  {
    PhishingLinkScanned(PhishingSample);
  }

  /** The phishing message yields the keyword "blocked". */
  lemma PhishingSampleYieldsKeyword()
    ensures "blocked" in ExtractIntelligence(PhishingSample).suspiciousKeywords
  {
    PhishingHasBlocked();
    SuspiciousKeywordsSpec(PhishingSample);
  }
}
