/** The records the captive portal and its admin dashboard exchange. */
module Types {
  import opened Wrappers

  /** A WiFi package on sale; `price` is a whole amount in `currency`. */
  datatype WifiPackage = WifiPackage(
    id: string,
    name: string,
    speed: string,
    duration: string,
    price: int,
    currency: string,
    description: string,
    color: string)

  /** A package before the store gives it an id. */
  datatype PackageDraft = PackageDraft(
    name: string,
    speed: string,
    duration: string,
    price: int,
    currency: string,
    description: string,
    color: string)

  /** The fields an update overrides; `None` leaves the package's own value. */
  datatype PackageUpdate = PackageUpdate(
    id: Option<string>,
    name: Option<string>,
    speed: Option<string>,
    duration: Option<string>,
    price: Option<int>,
    currency: Option<string>,
    description: Option<string>,
    color: Option<string>)

  /** The closed set of six payment providers. */
  datatype PaymentProvider = Pesapal | PawaPay | Vodacom | PayPal | Paystack | Flutterwave

  /** The string value each provider carries. */
  function ProviderLabel(p: PaymentProvider): string {
    match p
    case Pesapal => "Pesapal"
    case PawaPay => "PawaPay"
    case Vodacom => "Vodacom M-Pesa"
    case PayPal => "PayPal"
    case Paystack => "Paystack"
    case Flutterwave => "Flutterwave"
  }

  /** The provider a label names, if any: the inverse of `ProviderLabel`. */
  function ProviderOfLabel(s: string): (r: Option<PaymentProvider>)
    ensures r.Some? ==> ProviderLabel(r.value) == s
  {
    if s == "Pesapal" then Some(Pesapal)
    else if s == "PawaPay" then Some(PawaPay)
    else if s == "Vodacom M-Pesa" then Some(Vodacom)
    else if s == "PayPal" then Some(PayPal)
    else if s == "Paystack" then Some(Paystack)
    else if s == "Flutterwave" then Some(Flutterwave)
    else None
  }

  lemma ProviderLabelRoundTrip(p: PaymentProvider)
    ensures ProviderOfLabel(ProviderLabel(p)) == Some(p)
    ensures '&' !in ProviderLabel(p)
  {
  }

  datatype TransactionStatus = Completed | Pending | Failed

  datatype Transaction = Transaction(
    id: string,
    user: string,
    amount: int,
    packageId: string,
    packageName: Option<string>,
    provider: PaymentProvider,
    status: TransactionStatus,
    date: string)

  datatype UserStatus = Active | Blocked

  /** A device currently connected through the hotspot. */
  datatype User = User(
    id: string,
    mac: string,
    ip: string,
    device: string,
    uptime: string,
    bytesIn: string,
    bytesOut: string,
    status: UserStatus)

  datatype VoucherStatus = Unused | Used

  datatype Voucher = Voucher(
    code: string,
    duration: string,
    status: VoucherStatus,
    generatedAt: string)

  datatype RouterState = Online | Offline

  datatype RouterDevice = RouterDevice(
    id: string,
    name: string,
    ip: string,
    location: string,
    status: RouterState,
    lastSeen: string)

  /** A router as the admin enters it, before the store assigns id and status. */
  datatype RouterDraft = RouterDraft(name: string, ip: string, location: string)
}
