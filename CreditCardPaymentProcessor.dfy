/** Card payments: the details must be a long enough string of digits, and the
    simulated authorisation accepts amounts up to a fixed limit. */
module CreditCardPayments {
  import opened PaymentText

  const CardPaymentMethodName: string := "Credit Card"
  const MinimumCardNumberLength: nat := 15
  const AuthorizationLimit: real := 10000.0

  /** The simulated gateway is always reachable. */
  function ConnectToPaymentGateway(): (connected: bool)
    ensures connected
  {
    true
  }

  /** The simulated authorisation: amounts up to the limit, the limit included. */
  function AuthorizeTransaction(amount: real): (authorized: bool)
    ensures authorized <==> amount <= AuthorizationLimit
  {
    amount <= AuthorizationLimit
  }

  /** The payment succeeds exactly when the amount is within the authorisation limit;
      the customer information plays no part. */
  function ProcessPayment(amount: real, customerInfo: string): (success: bool)
    ensures success <==> amount <= 10000.0
  {
    ConnectToPaymentGateway() && AuthorizeTransaction(amount)
  }

  function GetPaymentMethodName(): (name: string)
    ensures name == "Credit Card"
  {
    CardPaymentMethodName
  }

  /** Not blank, a length (string.Length, in UTF-16 code units) of at least 15, and
      digits only. Digits are single code units and never blank, so details are
      valid exactly when they are at least 15 digits. */
  function ValidatePaymentDetails(paymentDetails: string): (valid: bool)
    ensures valid <==> |paymentDetails| >= 15 && AllDigits(paymentDetails)
  {
    var valid := !IsNullOrWhiteSpace(paymentDetails) && Utf16Length(paymentDetails) >= MinimumCardNumberLength &&
                 AllDigits(paymentDetails);
    if AllDigits(paymentDetails) then
      DigitsUtf16Length(paymentDetails);
      if |paymentDetails| >= MinimumCardNumberLength then
        DigitsAreNotBlank(paymentDetails);
        valid
      else
        valid
    else
      valid
  }

  /** Anything shorter than 15 characters is refused, whatever it contains. */
  lemma ShortCardDetailsRejected(paymentDetails: string)
    requires |paymentDetails| < 15
    ensures !ValidatePaymentDetails(paymentDetails)
  {
  }

  /** A 16-digit card number passes; the same number with one space in it does not. */
  lemma SixteenDigitCardNumber()
    ensures ValidatePaymentDetails("4111111111111111")
    ensures !ValidatePaymentDetails("4111 111111111111")
  {
    var spaced := "4111 111111111111";
    assert !IsDigit(spaced[4]);
  }
}
