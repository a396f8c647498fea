/**
 * The in-memory store that stands in for the portal's database: five tables
 * held by one object and changed in place by the API functions. Randomness
 * and clock readings are parameters of the operations that use them.
 */
module MockApi {
  import opened Wrappers
  import opened Text
  import opened Types

  // ---------------------------------------------------------------------------
  // Specification functions over the tables
  // ---------------------------------------------------------------------------

  function PackageId(p: WifiPackage): string { p.id }
  function UserId(u: User): string { u.id }
  function RouterId(r: RouterDevice): string { r.id }

  /** The entries of `s` whose key differs from `id`, in their original order. */
  function Without<T>(s: seq<T>, key: T -> string, id: string): (r: seq<T>)
    ensures |r| <= |s|
    ensures forall k | 0 <= k < |r| :: key(r[k]) != id && r[k] in s
    decreases |s|
  {
    if |s| == 0 then []
    else (if key(s[0]) == id then [] else [s[0]]) + Without(s[1..], key, id)
  }

  /** An entry survives exactly when it was there and its key differs from `id`. */
  lemma {:induction false} WithoutMembership<T>(s: seq<T>, key: T -> string, id: string, x: T)
    ensures x in Without(s, key, id) <==> x in s && key(x) != id
    decreases |s|
  {
    if |s| > 0 {
      WithoutMembership(s[1..], key, id, x);
      assert s == [s[0]] + s[1..];
    }
  }

  /** Filtering distributes over concatenation: survivors keep their relative order. */
  lemma {:induction false} WithoutAppend<T>(a: seq<T>, b: seq<T>, key: T -> string, id: string)
    ensures Without(a + b, key, id) == Without(a, key, id) + Without(b, key, id)
    decreases |a|
  {
    if |a| == 0 {
      assert a + b == b;
    } else {
      assert (a + b)[0] == a[0] && (a + b)[1..] == a[1..] + b;
      WithoutAppend(a[1..], b, key, id);
    }
  }

  /** Filtering a second time with the same id changes nothing. */
  lemma {:induction false} WithoutIdempotent<T>(s: seq<T>, key: T -> string, id: string)
    ensures Without(Without(s, key, id), key, id) == Without(s, key, id)
    decreases |s|
  {
    if |s| > 0 {
      var head := if key(s[0]) == id then [] else [s[0]];
      WithoutAppend(head, Without(s[1..], key, id), key, id);
      WithoutIdempotent(s[1..], key, id);
    }
  }

  /** When no entry carries `id`, filtering returns the table as it was. */
  lemma {:induction false} WithoutAbsent<T>(s: seq<T>, key: T -> string, id: string)
    requires forall k | 0 <= k < |s| :: key(s[k]) != id
    ensures Without(s, key, id) == s
    decreases |s|
  {
    if |s| > 0 {
      WithoutAbsent(s[1..], key, id);
    }
  }

  /** Object spread `{ ...p, ...u }`: every field the update mentions overrides the package's. */
  function Merge(p: WifiPackage, u: PackageUpdate): (r: WifiPackage)
    ensures u == NoUpdate ==> r == p
  {
    WifiPackage(
      id := u.id.GetOr(p.id),
      name := u.name.GetOr(p.name),
      speed := u.speed.GetOr(p.speed),
      duration := u.duration.GetOr(p.duration),
      price := u.price.GetOr(p.price),
      currency := u.currency.GetOr(p.currency),
      description := u.description.GetOr(p.description),
      color := u.color.GetOr(p.color))
  }

  const NoUpdate := PackageUpdate(None, None, None, None, None, None, None, None)

  /**
   * An update that mentions nothing keeps the package; merging twice equals
   * merging once; each of the eight fields keeps its value when the update
   * leaves it out and takes the update's value when the update sets it.
   */
  lemma MergeProperties(p: WifiPackage, u: PackageUpdate)
    ensures Merge(p, NoUpdate) == p
    ensures Merge(Merge(p, u), u) == Merge(p, u)
    ensures u.id.None? ==> Merge(p, u).id == p.id
    ensures u.id.Some? ==> Merge(p, u).id == u.id.value
    ensures u.name.None? ==> Merge(p, u).name == p.name
    ensures u.name.Some? ==> Merge(p, u).name == u.name.value
    ensures u.speed.None? ==> Merge(p, u).speed == p.speed
    ensures u.speed.Some? ==> Merge(p, u).speed == u.speed.value
    ensures u.duration.None? ==> Merge(p, u).duration == p.duration
    ensures u.duration.Some? ==> Merge(p, u).duration == u.duration.value
    ensures u.price.None? ==> Merge(p, u).price == p.price
    ensures u.price.Some? ==> Merge(p, u).price == u.price.value
    ensures u.currency.None? ==> Merge(p, u).currency == p.currency
    ensures u.currency.Some? ==> Merge(p, u).currency == u.currency.value
    ensures u.description.None? ==> Merge(p, u).description == p.description
    ensures u.description.Some? ==> Merge(p, u).description == u.description.value
    ensures u.color.None? ==> Merge(p, u).color == p.color
    ensures u.color.Some? ==> Merge(p, u).color == u.color.value
  {
  }

  /** `packages.map(p => p.id === id ? { ...p, ...updates } : p)`. */
  function UpdateById(ps: seq<WifiPackage>, id: string, u: PackageUpdate): (r: seq<WifiPackage>)
    ensures |r| == |ps|
    ensures forall k | 0 <= k < |ps| && ps[k].id != id :: r[k] == ps[k]
    ensures forall k | 0 <= k < |ps| && ps[k].id == id :: r[k] == Merge(ps[k], u)
  {
    seq(|ps|, k requires 0 <= k < |ps| => if ps[k].id == id then Merge(ps[k], u) else ps[k])
  }

  /** Updating an id that no package carries changes nothing. */
  lemma UpdateUnknownId(ps: seq<WifiPackage>, id: string, u: PackageUpdate)
    requires forall k | 0 <= k < |ps| :: ps[k].id != id
    ensures UpdateById(ps, id, u) == ps
  {
  }

  /** Applying the same update twice has the effect of applying it once. */
  lemma UpdateIdempotent(ps: seq<WifiPackage>, id: string, u: PackageUpdate)
    ensures UpdateById(UpdateById(ps, id, u), id, u) == UpdateById(ps, id, u)
  {
  }

  // ---------------------------------------------------------------------------
  // Identifiers drawn from Math.random()
  // ---------------------------------------------------------------------------

  predicate IsBase36Char(c: char) {
    '0' <= c <= '9' || 'a' <= c <= 'z'
  }

  /** What `Math.random().toString(36).substr(2, 9)` can produce: up to nine base-36 digits. */
  predicate IsGeneratedPackageId(id: string) {
    |id| <= 9 && forall k | 0 <= k < |id| :: IsBase36Char(id[k])
  }

  /** `'TXN-' + Math.floor(Math.random() * 10000)`, for the drawn integer `n`. */
  function TransactionId(n: nat): (id: string)
    ensures "TXN-" <= id && |id| > 4
  {
    "TXN-" + NatToString(n)
  }

  /** `'FURAHA-' + Math.floor(1000 + Math.random() * 9000)`, for the drawn integer `n`. */
  function VoucherCode(n: nat): (code: string)
    ensures "FURAHA-" <= code && |code| > 7
  {
    "FURAHA-" + NatToString(n)
  }

  /** `'r' + Math.floor(Math.random() * 1000)`, for the drawn integer `n`. */
  function RouterIdFor(n: nat): (id: string)
    ensures "r" <= id && |id| > 1
  {
    "r" + NatToString(n)
  }

  /** A voucher code is FURAHA- followed by four digits that read back as the drawn number. */
  lemma VoucherCodeFormat(n: nat)
    requires 1000 <= n <= 9999
    ensures var code := VoucherCode(n);
      && |code| == 11
      && code[..7] == "FURAHA-"
      && AllDigits(code[7..])
      && ParseDigits(code[7..]) == n
  {
    FourDigitLength(n);
    assert VoucherCode(n)[7..] == NatToString(n);
    ParseDigitsOfNatToString(n);
  }

  /** A router id is "r" followed by at most three digits that read back as the drawn number. */
  lemma RouterIdFormat(n: nat)
    requires n <= 999
    ensures var id := RouterIdFor(n);
      && 2 <= |id| <= 4
      && id[0] == 'r'
      && AllDigits(id[1..])
      && ParseDigits(id[1..]) == n
  {
    AtMostThreeDigits(n);
    assert RouterIdFor(n)[1..] == NatToString(n);
    ParseDigitsOfNatToString(n);
  }

  /** A transaction id is TXN- followed by the digits of the drawn number. */
  lemma TransactionIdFormat(n: nat)
    requires n <= 9999
    ensures var id := TransactionId(n);
      && 5 <= |id| <= 8
      && id[..4] == "TXN-"
      && AllDigits(id[4..])
      && ParseDigits(id[4..]) == n
  {
    if n >= 1000 {
      FourDigitLength(n);
    } else {
      AtMostThreeDigits(n);
    }
    assert TransactionId(n)[4..] == NatToString(n);
    ParseDigitsOfNatToString(n);
  }

  // ---------------------------------------------------------------------------
  // Seed data
  // ---------------------------------------------------------------------------

  const SeedPackages: seq<WifiPackage> := [
    WifiPackage("1", "Furaha 1 Hour", "5 Mbps", "1 Hour", 500, "TZS",
      "Perfect for quick emails and browsing.", "bg-blue-500"),
    WifiPackage("2", "Furaha Daily", "10 Mbps", "24 Hours", 2000, "TZS",
      "Stream movies and surf all day.", "bg-purple-500"),
    WifiPackage("3", "Furaha Weekly", "15 Mbps", "7 Days", 10000, "TZS",
      "Best value for short stays.", "bg-orange-500"),
    WifiPackage("4", "Furaha Monthly", "20 Mbps", "30 Days", 35000, "TZS",
      "Ultimate speed for professionals.", "bg-emerald-500")
  ]

  const SeedTransactions: seq<Transaction> := [
    Transaction("TXN-9981", "MacBook Pro 15", 2000, "2", Some("Furaha Daily"), Vodacom, Completed, "2023-10-27 10:30"),
    Transaction("TXN-9982", "iPhone 13", 500, "1", Some("Furaha 1 Hour"), Pesapal, Completed, "2023-10-27 10:45"),
    Transaction("TXN-9983", "Samsung S21", 10000, "3", Some("Furaha Weekly"), PawaPay, Completed, "2023-10-27 11:15"),
    Transaction("TXN-9984", "Laptop Dell", 35000, "4", Some("Furaha Monthly"), PayPal, Completed, "2023-10-27 12:00")
  ]

  const SeedUsers: seq<User> := [
    User("u1", "A1:B2:C3:D4:E5:F6", "192.168.88.10", "iPhone 13 Pro", "2h 15m", "450 MB", "120 MB", Active),
    User("u2", "11:22:33:44:55:66", "192.168.88.11", "Samsung S21", "45m", "120 MB", "15 MB", Active),
    User("u3", "AA:BB:CC:DD:EE:FF", "192.168.88.12", "MacBook Pro", "5h 30m", "1.2 GB", "300 MB", Active)
  ]

  const SeedVouchers: seq<Voucher> := [
    Voucher("FURAHA-7782", "24 Hours", Unused, "2023-10-28 09:00"),
    Voucher("FURAHA-3321", "1 Hour", Used, "2023-10-27 14:00")
  ]

  const SeedRouters: seq<RouterDevice> := [
    RouterDevice("r1", "Main Gate Router", "192.168.88.1", "Reception", Online, "Just now"),
    RouterDevice("r2", "Poolside AP", "192.168.88.2", "Pool Area", Online, "2 mins ago")
  ]

  /** The seeded voucher codes have the shape the generator produces. */
  lemma SeedVoucherCodesAreGenerated()
    ensures SeedVouchers[0].code == VoucherCode(7782)
    ensures SeedVouchers[1].code == VoucherCode(3321)
  {
  }

  const PaymentConfirmedMessage := "Payment confirmed. Internet access granted."

  /** What `processPayment` resolves with. */
  datatype PaymentOutcome = PaymentOutcome(success: bool, message: string, transaction: Option<Transaction>)

  // ---------------------------------------------------------------------------
  // The store
  // ---------------------------------------------------------------------------

  /**
   * The five module-level tables. Each mutator's `modifies` clause names the
   * one table it changes, so the other four are unchanged by construction.
   */
  class Store {
    var packages: seq<WifiPackage>
    var transactions: seq<Transaction>
    var activeUsers: seq<User>
    var vouchers: seq<Voucher>
    var routers: seq<RouterDevice>

    constructor ()
      ensures packages == SeedPackages && transactions == SeedTransactions
      ensures activeUsers == SeedUsers && vouchers == SeedVouchers && routers == SeedRouters
    {
      packages := SeedPackages;
      transactions := SeedTransactions;
      activeUsers := SeedUsers;
      vouchers := SeedVouchers;
      routers := SeedRouters;
    }

    /** A copy of the package table: same entries, same order, store untouched. */
    method GetPackages() returns (r: seq<WifiPackage>)
      ensures r == packages
    {
      r := packages;
    }

    /** Appends the draft with a fresh random id. */
    method AddPackage(pkg: PackageDraft, newId: string)
      requires IsGeneratedPackageId(newId)
      modifies this`packages
      ensures |packages| == |old(packages)| + 1
      ensures packages[..|old(packages)|] == old(packages)
      ensures packages[|old(packages)|] == WifiPackage(newId, pkg.name, pkg.speed, pkg.duration,
                                                       pkg.price, pkg.currency, pkg.description, pkg.color)
    {
      var newPkg := WifiPackage(newId, pkg.name, pkg.speed, pkg.duration,
                                pkg.price, pkg.currency, pkg.description, pkg.color);
      packages := packages + [newPkg];
    }

    /** Every package whose id matches takes the update's fields; the rest stay as they were. */
    method UpdatePackage(id: string, updates: PackageUpdate)
      modifies this`packages
      ensures packages == UpdateById(old(packages), id, updates)
    {
      packages := UpdateById(packages, id, updates);
    }

    /** Removes every package carrying `id`. */
    method DeletePackage(id: string)
      modifies this`packages
      ensures packages == Without(old(packages), PackageId, id)
    {
      packages := Without(packages, PackageId, id);
    }

    /**
     * Records a completed payment at the head of the history and reports it.
     * `txnNumber` is the random integer in the id, `date` the clock reading.
     */
    method ProcessPayment(provider: PaymentProvider, amount: int, pkg: Option<WifiPackage>,
                          txnNumber: nat, date: string) returns (result: PaymentOutcome)
      requires txnNumber <= 9999
      modifies this`transactions
      ensures result.success && result.message == PaymentConfirmedMessage
      ensures result.transaction.Some?
      ensures transactions == [result.transaction.value] + old(transactions)
      ensures var tx := result.transaction.value;
        && tx.id == TransactionId(txnNumber)
        && tx.user == "Current Device"
        && tx.amount == amount
        && tx.provider == provider
        && tx.status == Completed
        && tx.date == date
        && (pkg.Some? && pkg.value.id != "" ==> tx.packageId == pkg.value.id)
        && (pkg.None? || pkg.value.id == "" ==> tx.packageId == "unknown")
        && (pkg.Some? ==> tx.packageName == Some(pkg.value.name))
        && (pkg.None? ==> tx.packageName == None)
    {
      var packageId := if pkg.Some? && pkg.value.id != "" then pkg.value.id else "unknown";
      var packageName := if pkg.Some? then Some(pkg.value.name) else None;
      var newTx := Transaction(TransactionId(txnNumber), "Current Device", amount, packageId,
                               packageName, provider, Completed, date);
      transactions := [newTx] + transactions;
      result := PaymentOutcome(true, PaymentConfirmedMessage, Some(newTx));
    }

    method GetRecentTransactions() returns (r: seq<Transaction>)
      ensures r == transactions
    {
      r := transactions;
    }

    method GetActiveUsers() returns (r: seq<User>)
      ensures r == activeUsers
    {
      r := activeUsers;
    }

    /** Disconnects every user carrying `id`. */
    method KickUser(id: string)
      modifies this`activeUsers
      ensures activeUsers == Without(old(activeUsers), UserId, id)
    {
      activeUsers := Without(activeUsers, UserId, id);
    }

    method GetVouchers() returns (r: seq<Voucher>)
      ensures r == vouchers
    {
      r := vouchers;
    }

    /**
     * Issues an unused voucher at the head of the list and returns it.
     * `n` is the random integer in the code, `date` the clock reading.
     */
    method GenerateVoucher(duration: string, n: nat, date: string) returns (v: Voucher)
      requires 1000 <= n <= 9999
      modifies this`vouchers
      ensures v.code == VoucherCode(n) && v.duration == duration
      ensures v.status == Unused && v.generatedAt == date
      ensures vouchers == [v] + old(vouchers)
    {
      v := Voucher(VoucherCode(n), duration, Unused, date);
      vouchers := [v] + vouchers;
    }

    method GetRouters() returns (r: seq<RouterDevice>)
      ensures r == routers
    {
      r := routers;
    }

    /** Appends the router, offline and never seen, under a random id. */
    method AddRouter(router: RouterDraft, n: nat)
      requires n <= 999
      modifies this`routers
      ensures |routers| == |old(routers)| + 1
      ensures routers[..|old(routers)|] == old(routers)
      ensures var added := routers[|old(routers)|];
        && added.id == RouterIdFor(n)
        && added.name == router.name && added.ip == router.ip && added.location == router.location
        && added.status == Offline && added.lastSeen == "Never"
    {
      var newRouter := RouterDevice(RouterIdFor(n), router.name, router.ip, router.location, Offline, "Never");
      routers := routers + [newRouter];
    }

    /** Removes every router carrying `id`. */
    method DeleteRouter(id: string)
      modifies this`routers
      ensures routers == Without(old(routers), RouterId, id)
    {
      routers := Without(routers, RouterId, id);
    }
  }
}
