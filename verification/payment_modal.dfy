/**
 * The checkout form shown when a guest buys a package: provider choice,
 * contact entry or QR payment, and the submit rule.
 */
module PaymentModal {
  import opened Wrappers
  import opened Text
  import opened Types

  /** The provider buttons, in the order the form lists them. */
  const ProviderButtons: seq<PaymentProvider> := [Vodacom, PawaPay, Pesapal, PayPal, Paystack, Flutterwave]

  /** Card and wallet gateways identify the payer by email address. */
  function IsEmailRequired(selected: Option<PaymentProvider>): (required: bool)
    ensures required ==> selected.Some?
  {
    selected == Some(PayPal) || selected == Some(Paystack) || selected == Some(Flutterwave)
  }

  /** Only these providers offer payment by scanning a QR code; both take a mobile number. */
  function SupportsQR(selected: Option<PaymentProvider>): (supported: bool)
    ensures supported ==> selected.Some? && !IsEmailRequired(selected)
  {
    selected == Some(Pesapal) || selected == Some(PawaPay)
  }

  /** The providerText of the contact field. */
  function ContactLabel(selected: Option<PaymentProvider>): string {
    if IsEmailRequired(selected) then "Email Address" else "Mobile Number"
  }

  /** The input/QR toggle is rendered only for a selected provider that supports QR. */
  predicate QrToggleShown(selected: Option<PaymentProvider>) {
    selected.Some? && SupportsQR(selected)
  }

  /**
   * The capability table: three providers ask for an email address, the other
   * three for a mobile number, and only two mobile-number providers offer QR.
   */
  lemma ProviderCapabilities(p: PaymentProvider)
    ensures p in ProviderButtons
    ensures IsEmailRequired(Some(p)) <==> p in {PayPal, Paystack, Flutterwave}
    ensures ContactLabel(Some(p)) == "Mobile Number" <==> p in {Pesapal, PawaPay, Vodacom}
    ensures SupportsQR(Some(p)) <==> p in {Pesapal, PawaPay}
    ensures SupportsQR(Some(p)) ==> !IsEmailRequired(Some(p))
    ensures !IsEmailRequired(None) && !SupportsQR(None)
  {
  }

  datatype PaymentMode = Input | Qr

  /** The arguments the form hands to the purchase callback. */
  datatype ConfirmCall = ConfirmCall(provider: PaymentProvider, contact: string)

  /** The contact passed when the guest confirms a QR payment. */
  const QrScanContact := "QR_SCAN"

  const PayUrlPrefix := "https://furahasurfing.com/pay?p="

  /** The URL encoded in the QR code. */
  function QrPayload(provider: PaymentProvider, price: int, packageId: string): (url: string)
    ensures PayUrlPrefix <= url
    ensures |url| > |PayUrlPrefix|
  {
    PayUrlPrefix + ProviderLabel(provider) + "&a=" + IntToString(price) + "&id=" + packageId
  }

  /** The three parameters a payment page reads from the QR URL. */
  datatype QrFields = QrFields(provider: PaymentProvider, amount: int, packageId: string)

  /** Reads a QR URL back into its provider, amount and package id. */
  function ParseQrPayload(url: string): Option<QrFields> {
    if PayUrlPrefix <= url then ParseQrQuery(url[|PayUrlPrefix|..]) else None
  }

  /** Reads `<provider>&a=<amount>&id=<package id>`. */
  function ParseQrQuery(query: string): Option<QrFields> {
    var i := IndexOf(query, '&');
    var provider := ProviderOfLabel(query[..i]);
    if provider.None? || !("&a=" <= query[i..]) then None
    else
      match ParseAmountAndId(query[i + 3..])
      case None => None
      case Some((amount, packageId)) => Some(QrFields(provider.value, amount, packageId))
  }

  /** Reads `<amount>&id=<package id>`. */
  function ParseAmountAndId(s: string): Option<(int, string)> {
    var j := IndexOf(s, '&');
    if IsIntegerText(s[..j]) && "&id=" <= s[j..] then Some((ParseInt(s[..j]), s[j + 4..])) else None
  }

  lemma NoAmpersandInIntegerText(s: string)
    requires IsIntegerText(s)
    ensures '&' !in s
  {
  }

  lemma AmountAndIdRoundTrip(price: int, packageId: string)
    ensures ParseAmountAndId(IntToString(price) + "&id=" + packageId) == Some((price, packageId))
  {
    var amount := IntToString(price);
    var s := amount + "&id=" + packageId;
    assert s == amount + ("&id=" + packageId);
    NoAmpersandInIntegerText(amount);
    IndexOfAfterPrefix(amount, "&id=" + packageId, '&');
    assert s[..|amount|] == amount;
    assert s[|amount|..] == "&id=" + packageId;
    ParseIntOfIntToString(price);
  }

  /** A query `<provider>&a=<tail>` names that provider and carries what its tail carries. */
  lemma ParseQuerySplit(providerText: string, provider: PaymentProvider, tail: string, amount: int, packageId: string)
    requires ProviderOfLabel(providerText) == Some(provider) && '&' !in providerText
    requires ParseAmountAndId(tail) == Some((amount, packageId))
    ensures ParseQrQuery(providerText + ("&a=" + tail)) == Some(QrFields(provider, amount, packageId))
  {
    IndexOfAfterPrefix(providerText, "&a=" + tail, '&');
    var q := providerText + ("&a=" + tail);
    assert q[..|providerText|] == providerText;
    assert q[|providerText|..] == "&a=" + tail;
    assert q[|providerText| + 3..] == tail;
  }

  lemma RegroupQuery(providerText: string, amount: string, packageId: string)
    ensures providerText + "&a=" + amount + "&id=" + packageId == providerText + ("&a=" + (amount + "&id=" + packageId))
  {
  }

  lemma QueryRoundTrip(provider: PaymentProvider, price: int, packageId: string)
    ensures ParseQrQuery(ProviderLabel(provider) + "&a=" + IntToString(price) + "&id=" + packageId)
         == Some(QrFields(provider, price, packageId))
  {
    var providerText := ProviderLabel(provider);
    var amount := IntToString(price);
    ProviderLabelRoundTrip(provider);
    AmountAndIdRoundTrip(price, packageId);
    ParseQuerySplit(providerText, provider, amount + "&id=" + packageId, price, packageId);
    RegroupQuery(providerText, amount, packageId);
  }

  /** The QR URL determines provider, amount and package id: a payment page recovers all three. */
  lemma QrPayloadRoundTrip(provider: PaymentProvider, price: int, packageId: string)
    ensures ParseQrPayload(QrPayload(provider, price, packageId)) == Some(QrFields(provider, price, packageId))
  {
    var query := ProviderLabel(provider) + "&a=" + IntToString(price) + "&id=" + packageId;
    assert QrPayload(provider, price, packageId) == PayUrlPrefix + query;
    assert (PayUrlPrefix + query)[|PayUrlPrefix|..] == query;
    QueryRoundTrip(provider, price, packageId);
  }

  /** The form's state: which provider is chosen, the contact typed, and the payment mode. */
  class CheckoutForm {
    const pkg: WifiPackage
    var selectedProvider: Option<PaymentProvider>
    var contactInfo: string
    var isProcessing: bool
    var paymentMode: PaymentMode

    /**
     * QR mode is reachable only for a selected provider that supports it, and
     * nothing can be typed before a provider is chosen.
     */
    ghost predicate Valid()
      reads this
    {
      && (paymentMode == Qr ==> QrToggleShown(selectedProvider))
      && (selectedProvider.None? ==> contactInfo == "")
    }

    /** The contact field is rendered for a chosen provider in input mode. */
    predicate ContactFieldShown()
      reads this
    {
      selectedProvider.Some? && paymentMode == Input
    }

    /**
     * The submit button's `disabled` rule: an enabled button means a provider
     * is chosen and, in input mode, a contact has been typed; choosing a QR
     * provider's QR mode always enables it.
     */
    function SubmitDisabled(): (disabled: bool)
      reads this
      ensures !disabled ==> selectedProvider.Some?
      ensures !disabled && paymentMode == Input ==> contactInfo != ""
      ensures selectedProvider.Some? && paymentMode == Qr ==> !disabled
      ensures selectedProvider.Some? && contactInfo != "" ==> !disabled
    {
      selectedProvider.None? || (paymentMode == Input && contactInfo == "")
    }

    /** The URL shown as a QR code, when the QR panel is rendered. */
    function QrValue(): (r: Option<string>)
      requires Valid()
      reads this
      ensures r.Some? <==> paymentMode == Qr
      ensures r.Some? ==> SupportsQR(selectedProvider)
      ensures r.Some? ==> r.value == QrPayload(selectedProvider.value, pkg.price, pkg.id)
      ensures r.Some? ==> ParseQrPayload(r.value) == Some(QrFields(selectedProvider.value, pkg.price, pkg.id))
    {
      if selectedProvider.Some? && paymentMode == Qr then
        QrPayloadRoundTrip(selectedProvider.value, pkg.price, pkg.id);
        Some(QrPayload(selectedProvider.value, pkg.price, pkg.id))
      else None
    }

    constructor (pkg: WifiPackage)
      ensures this.pkg == pkg && Valid()
      ensures selectedProvider == None && contactInfo == ""
      ensures !isProcessing && paymentMode == Input
    {
      this.pkg := pkg;
      selectedProvider := None;
      contactInfo := "";
      isProcessing := false;
      paymentMode := Input;
    }

    /** Choosing a provider clears the contact and returns to direct input. */
    method SelectProvider(p: PaymentProvider)
      requires Valid()
      modifies this`selectedProvider, this`contactInfo, this`paymentMode
      ensures Valid()
      ensures selectedProvider == Some(p) && contactInfo == "" && paymentMode == Input
      ensures SubmitDisabled()
    {
      selectedProvider := Some(p);
      contactInfo := "";
      paymentMode := Input;
    }

    /** Typing into the contact field, which exists only in input mode. */
    method EditContact(text: string)
      requires Valid() && ContactFieldShown()
      modifies this`contactInfo
      ensures Valid() && contactInfo == text
      ensures SubmitDisabled() <==> text == ""
    {
      contactInfo := text;
    }

    /** Pressing one side of the input/QR toggle. */
    method ChooseMode(mode: PaymentMode)
      requires Valid() && QrToggleShown(selectedProvider)
      modifies this`paymentMode
      ensures Valid() && paymentMode == mode
      ensures mode == Qr ==> !SubmitDisabled()
    {
      paymentMode := mode;
    }

    /**
     * Submitting the form: nothing happens without a provider; otherwise the
     * form starts processing and hands provider and contact to the callback.
     */
    method Submit() returns (call: Option<ConfirmCall>)
      requires Valid()
      modifies this`isProcessing
      ensures call.None? <==> selectedProvider.None?
      ensures call.None? ==> isProcessing == old(isProcessing)
      ensures call.Some? ==> isProcessing && call.value.provider == selectedProvider.value
      ensures call.Some? && paymentMode == Qr ==> call.value.contact == QrScanContact
      ensures call.Some? && paymentMode == Input ==> call.value.contact == contactInfo
      ensures call.Some? && paymentMode == Qr ==> SupportsQR(Some(call.value.provider))
      ensures !SubmitDisabled() ==> call.Some? && call.value.contact != ""
    {
      if selectedProvider.None? {
        return None;
      }
      isProcessing := true;
      var contact := if paymentMode == Qr then QrScanContact else contactInfo;
      call := Some(ConfirmCall(selectedProvider.value, contact));
    }

    /** The callback's promise has settled. */
    method ConfirmSettled()
      modifies this`isProcessing
      ensures !isProcessing
    {
      isProcessing := false;
    }
  }
}
