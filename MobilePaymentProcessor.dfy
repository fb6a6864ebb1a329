/** Mobile payments: the details are a phone number ("+" prefix) or a 10-character
    token, and the simulated request and app check always succeed. */
module MobilePayments {
  import opened PaymentText

  const MobilePaymentMethodName: string := "Mobile Payment"
  const MobileTokenLength: nat := 10

  function SendPaymentRequest(amount: real): (sent: bool)
    ensures sent
  {
    true
  }

  function VerifyMobileApp(): (verified: bool)
    ensures verified
  {
    true
  }

  /** Both simulated steps succeed, so every payment does, whatever the amount. */
  function ProcessPayment(amount: real, customerInfo: string): (success: bool)
    ensures success
  {
    SendPaymentRequest(amount) && VerifyMobileApp()
  }

  function GetPaymentMethodName(): (name: string)
    ensures name == "Mobile Payment"
  {
    MobilePaymentMethodName
  }

  /** Not blank, and either a "+" prefix or a length of exactly 10 (string.Length,
      in UTF-16 code units). Any "+"-prefixed string passes, since it cannot be
      blank; any other string passes exactly when it is 10 code units long and not
      all white space. */
  function ValidatePaymentDetails(paymentDetails: string): (valid: bool)
    ensures StartsWith(paymentDetails, "+") ==> valid
    ensures !StartsWith(paymentDetails, "+") ==>
              (valid <==> Utf16Length(paymentDetails) == 10 && !IsNullOrWhiteSpace(paymentDetails))
  {
    var valid := !IsNullOrWhiteSpace(paymentDetails) &&
                 (StartsWith(paymentDetails, "+") || Utf16Length(paymentDetails) == MobileTokenLength);
    if StartsWith(paymentDetails, "+") then
      PlusPrefixIsNotBlank(paymentDetails);
      valid
    else
      valid
  }

  /** Ten spaces have the token length but are blank, so they are refused. */
  lemma TenSpacesRejected()
    ensures Utf16Length("          ") == 10 && !ValidatePaymentDetails("          ")
  {
    var blank := "          ";
    assert forall i :: 0 <= i < |blank| ==> blank[i] == ' ';
    BmpUtf16Length(blank);
  }

  /** A string of digits has no "+" prefix and one code unit per digit, so it
      passes exactly when it holds ten digits. */
  lemma DigitsValidExactlyAtTen(s: string)
    requires AllDigits(s)
    ensures ValidatePaymentDetails(s) <==> |s| == 10
  {
    DigitsUtf16Length(s);
    if |s| > 0 {
      assert IsDigit(s[0]);
      DigitsAreNotBlank(s);
    }
  }

  /** A ten-digit number passes without a prefix; a nine-digit one does not. */
  lemma TenDigitNumber()
    ensures ValidatePaymentDetails("5551234567")
    ensures !ValidatePaymentDetails("555123456")
  {
    DigitsValidExactlyAtTen("5551234567");
    DigitsValidExactlyAtTen("555123456");
  }

  /** Five characters outside the Basic Multilingual Plane are ten code units, so
      they make a valid token although the string holds only five characters. */
  lemma SurrogatePairToken()
    ensures |"\U{1F600}\U{1F600}\U{1F600}\U{1F600}\U{1F600}"| == 5
    ensures ValidatePaymentDetails("\U{1F600}\U{1F600}\U{1F600}\U{1F600}\U{1F600}")
  {
    var token := "\U{1F600}\U{1F600}\U{1F600}\U{1F600}\U{1F600}";
    assert token[0] != '+' && !IsWhiteSpace(token[0]);
    assert Utf16Length(token[4..]) == 2;
    assert Utf16Length(token[3..]) == 4;
    assert Utf16Length(token[2..]) == 6;
    assert Utf16Length(token[1..]) == 8;
  }
}
