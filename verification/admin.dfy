/**
 * The admin dashboard's controller: the package editor (create, edit,
 * confirmed delete), the router form, voucher generation, user kicks, and
 * the MikroTik provisioning script. The handlers drive the shared store and
 * refresh the dashboard's copies of its tables.
 */
module Admin {
  import opened Wrappers
  import opened Text
  import opened Types
  import opened MockApi

  /** The package editor's four text fields. */
  datatype PackageForm = PackageForm(name: string, price: string, speed: string, duration: string)

  const EmptyPackageForm := PackageForm("", "", "", "")
  const EmptyRouterForm := RouterDraft("", "", "")

  /** JavaScript truthiness of a `string | null`: set and not empty. */
  predicate IsSet(o: Option<string>) {
    o.Some? && o.value != ""
  }

  /** The price field is empty or holds text `parseInt` reads completely. */
  predicate PriceFieldOk(price: string) {
    price == "" || IsIntegerText(price)
  }

  /** The form a package is loaded into when the admin starts editing it. */
  function FormOf(pkg: WifiPackage): (f: PackageForm)
    ensures PriceFieldOk(f.price) && f.price != ""
  {
    PackageForm(pkg.name, IntToString(pkg.price), pkg.speed, pkg.duration)
  }

  /** The fields a saved form overrides in edit mode. */
  function FormUpdate(f: PackageForm): (u: PackageUpdate)
    requires IsIntegerText(f.price)
    ensures u.id.None? && u.currency.None? && u.description.None? && u.color.None?
    ensures u.name.Some? && u.speed.Some? && u.duration.Some? && u.price.Some?
  {
    PackageUpdate(None, Some(f.name), Some(f.speed), Some(f.duration), Some(ParseInt(f.price)), None, None, None)
  }

  /** Loading a package into the form and saving it unchanged writes back the package itself. */
  lemma EditRoundTrip(pkg: WifiPackage)
    ensures Merge(pkg, FormUpdate(FormOf(pkg))) == pkg
  {
    ParseIntOfIntToString(pkg.price);
  }

  /**
   * Saving an unedited form leaves the package table as it was, as long as
   * every package with that id is the one that was loaded and the id is not
   * the empty string (an empty id reads as "not editing", and the save would
   * append a new "Custom Plan" package instead).
   */
  lemma SaveUneditedKeepsPackages(ps: seq<WifiPackage>, pkg: WifiPackage)
    requires pkg.id != ""
    requires forall k | 0 <= k < |ps| && ps[k].id == pkg.id :: ps[k] == pkg
    ensures UpdateById(ps, pkg.id, FormUpdate(FormOf(pkg))) == ps
  {
    EditRoundTrip(pkg);
  }

  // ---------------------------------------------------------------------------
  // The MikroTik provisioning script
  // ---------------------------------------------------------------------------

  /**
   * A walled-garden entry that lets unauthenticated guests reach `host` and
   * its subdomains.
   */
  function AllowHostLine(host: string, comment: string): string {
    "add dst-host=*" + host + " action=allow" + " comment=\"" + comment + "\""
  }

  /** The payment host each provider needs to reach before the guest has paid. */
  function ProviderHost(p: PaymentProvider): string {
    match p
    case Pesapal => "pesapal.com"
    case PawaPay => "pawapay.io"
    case Vodacom => "vodacom.co.tz"
    case PayPal => "paypal.com"
    case Paystack => "paystack.com"
    case Flutterwave => "flutterwave.com"
  }

  /** The walled-garden lines for the six payment providers. */
  const ProviderAllowLines: seq<string> := [
    AllowHostLine(ProviderHost(Pesapal), "Pesapal Payment API"),
    AllowHostLine(ProviderHost(PawaPay), "PawaPay API"),
    AllowHostLine(ProviderHost(Vodacom), "Vodacom M-Pesa"),
    AllowHostLine(ProviderHost(PayPal), "PayPal"),
    AllowHostLine(ProviderHost(Paystack), "Paystack"),
    AllowHostLine(ProviderHost(Flutterwave), "Flutterwave")
  ]

  // The long script lines below are written as concatenations of short
  // literals so that the verifier can see that none of them holds a newline.

  function BillingServerLine(macbookIp: string): string {
    "add dst-address=" + macbookIp + " action=allow" + " comment=" + "\"Furaha Billing Server (MacBook)\""
  }

  function HotspotProfileLine(routerIp: string): string {
    "set [find name=\"hsprof1\"]" + " login-by=http-chap,http-pap" + " split-user-domain=no"
      + " hotspot-address=" + routerIp + " html-directory=hotspot"
  }

  const UserProfileLine := "set [find default=yes]" + " shared-users=1" + " rate-limit=\"\"" + " transparent-proxy=yes"

  function PingLine(macbookIp: string): string {
    "/ping " + macbookIp + " count=3"
  }

  function ScriptLines(macbookIp: string, routerIp: string): (lines: seq<string>)
    ensures |lines| == 17
    ensures lines[2..8] == ProviderAllowLines
  {
    ["/ip hotspot walled-garden", BillingServerLine(macbookIp)]
    + ProviderAllowLines
    + ["",
       "/ip hotspot profile",
       HotspotProfileLine(routerIp),
       "",
       "/ip hotspot user profile",
       UserProfileLine,
       "",
       "# Ensure MacBook is accessible",
       PingLine(macbookIp)]
  }

  /** The script the dashboard shows for a router. */
  function ProvisioningScript(macbookIp: string, routerIp: string): (script: string)
    ensures "/ip hotspot walled-garden\n" <= script
  {
    JoinLines(ScriptLines(macbookIp, routerIp))
  }

  /**
   * Read line by line, the script allows the billing server's address and
   * pings it at the end, points the hotspot at the router, and carries the
   * six provider lines whatever the two addresses are.
   */
  lemma ScriptContents(macbookIp: string, routerIp: string)
    requires '\n' !in macbookIp && '\n' !in routerIp
    ensures var lines := SplitLines(ProvisioningScript(macbookIp, routerIp));
      && |lines| == 17
      && lines[0] == "/ip hotspot walled-garden"
      && lines[1] == BillingServerLine(macbookIp)
      && lines[2..8] == ProviderAllowLines
      && lines[10] == HotspotProfileLine(routerIp)
      && lines[16] == PingLine(macbookIp)
  {
    var lines := ScriptLines(macbookIp, routerIp);
    ScriptLinesHaveNoNewline(macbookIp, routerIp);
    SplitJoinLines(lines);
    assert SplitLines(ProvisioningScript(macbookIp, routerIp)) == lines;
  }

  /** No line of the script breaks in two, given addresses without a newline. */
  lemma ScriptLinesHaveNoNewline(macbookIp: string, routerIp: string)
    requires '\n' !in macbookIp && '\n' !in routerIp
    ensures forall line | line in ScriptLines(macbookIp, routerIp) :: '\n' !in line
  {
    BillingServerLineIsOneLine(macbookIp);
    HotspotProfileLineIsOneLine(routerIp);
    PingLineIsOneLine(macbookIp);
    UserProfileLineIsOneLine();
    ProviderAllowLinesAreSingleLines();
  }

  lemma BillingServerLineIsOneLine(macbookIp: string)
    requires '\n' !in macbookIp
    ensures '\n' !in BillingServerLine(macbookIp)
  {}

  lemma HotspotProfileLineIsOneLine(routerIp: string)
    requires '\n' !in routerIp
    ensures '\n' !in HotspotProfileLine(routerIp)
  {}

  lemma PingLineIsOneLine(macbookIp: string)
    requires '\n' !in macbookIp
    ensures '\n' !in PingLine(macbookIp)
  {}

  lemma UserProfileLineIsOneLine()
    ensures '\n' !in UserProfileLine
  {}

  lemma ProviderAllowLinesAreSingleLines()
    ensures forall line | line in ProviderAllowLines :: '\n' !in line
  {}

  // ---------------------------------------------------------------------------
  // The dashboard
  // ---------------------------------------------------------------------------

  class AdminDashboard {
    /** The shared store the API functions act on. */
    const store: Store

    // The dashboard's copies of the store's tables.
    var transactions: seq<Transaction>
    var users: seq<User>
    var packages: seq<WifiPackage>
    var vouchers: seq<Voucher>
    var routers: seq<RouterDevice>

    // Form state.
    var newPackage: PackageForm
    var editingId: Option<string>
    var voucherDuration: string
    var newRouter: RouterDraft

    // Dialog state.
    var deleteConfirmationId: Option<string>
    var provisionModalOpen: bool
    var selectedRouterIp: string
    var macbookIp: string

    /** The price field always holds text that saving can parse. */
    ghost predicate Valid()
      reads this
    {
      PriceFieldOk(newPackage.price)
    }

    constructor (store: Store)
      ensures this.store == store && Valid()
      ensures transactions == [] && users == [] && packages == [] && vouchers == [] && routers == []
      ensures newPackage == EmptyPackageForm && editingId == None
      ensures voucherDuration == "1 Hour" && newRouter == EmptyRouterForm
      ensures deleteConfirmationId == None && !provisionModalOpen
      ensures selectedRouterIp == "" && macbookIp == "192.168.88.254"
    {
      this.store := store;
      transactions, users, packages, vouchers, routers := [], [], [], [], [];
      newPackage := EmptyPackageForm;
      editingId := None;
      voucherDuration := "1 Hour";
      newRouter := EmptyRouterForm;
      deleteConfirmationId := None;
      provisionModalOpen := false;
      selectedRouterIp := "";
      macbookIp := "192.168.88.254";
    }

    /** Reloads every table from the store (on mount and on every tab change). */
    method FetchData()
      modifies this`transactions, this`users, this`packages, this`vouchers, this`routers
      ensures transactions == store.transactions && users == store.activeUsers
      ensures packages == store.packages && vouchers == store.vouchers && routers == store.routers
    {
      transactions := store.GetRecentTransactions();
      users := store.GetActiveUsers();
      packages := store.GetPackages();
      vouchers := store.GetVouchers();
      routers := store.GetRouters();
    }

    method HandleKickUser(id: string)
      modifies store`activeUsers, this`users
      ensures store.activeUsers == Without(old(store.activeUsers), UserId, id)
      ensures users == store.activeUsers
    {
      store.KickUser(id);
      users := store.GetActiveUsers();
    }

    /** Typing into the package editor. */
    method EditPackageForm(form: PackageForm)
      requires PriceFieldOk(form.price)
      modifies this`newPackage
      ensures newPackage == form && Valid()
    {
      newPackage := form;
    }

    /**
     * Saving the package editor: nothing happens while name or price is empty;
     * in edit mode the package being edited takes the form's fields, otherwise
     * a new custom plan is appended; then the form is cleared.
     * `newId` is the random id `addPackage` would draw.
     */
    method HandleSavePackage(newId: string)
      requires Valid() && IsGeneratedPackageId(newId)
      modifies store`packages, this`packages, this`newPackage, this`editingId
      ensures Valid()
      ensures old(newPackage.name) == "" || old(newPackage.price) == "" ==>
        && store.packages == old(store.packages) && packages == old(packages)
        && newPackage == old(newPackage) && editingId == old(editingId)
      ensures old(newPackage.name) != "" && old(newPackage.price) != "" ==>
        && newPackage == EmptyPackageForm
        && packages == store.packages
      ensures old(newPackage.name) != "" && old(newPackage.price) != "" && IsSet(old(editingId)) ==>
        && store.packages == UpdateById(old(store.packages), old(editingId).value, FormUpdate(old(newPackage)))
        && editingId == None
      ensures old(newPackage.name) != "" && old(newPackage.price) != "" && !IsSet(old(editingId)) ==>
        && |store.packages| == |old(store.packages)| + 1
        && store.packages[..|old(store.packages)|] == old(store.packages)
        && store.packages[|old(store.packages)|]
           == WifiPackage(newId, old(newPackage.name), old(newPackage.speed), old(newPackage.duration),
                          ParseInt(old(newPackage.price)), "TZS", "Custom Plan", "bg-gray-600")
        && editingId == old(editingId)
    {
      if newPackage.name == "" || newPackage.price == "" {
        return;
      }
      if IsSet(editingId) {
        store.UpdatePackage(editingId.value, FormUpdate(newPackage));
        editingId := None;
      } else {
        var draft := PackageDraft(newPackage.name, newPackage.speed, newPackage.duration,
                                  ParseInt(newPackage.price), "TZS", "Custom Plan", "bg-gray-600");
        store.AddPackage(draft, newId);
      }
      packages := store.GetPackages();
      newPackage := EmptyPackageForm;
    }

    /** Loads a package into the editor and enters edit mode for its id. */
    method StartEditing(pkg: WifiPackage)
      modifies this`newPackage, this`editingId
      ensures Valid()
      ensures newPackage == FormOf(pkg) && editingId == Some(pkg.id)
      ensures newPackage.price != "" && ParseInt(newPackage.price) == pkg.price
    {
      newPackage := FormOf(pkg);
      editingId := Some(pkg.id);
      ParseIntOfIntToString(pkg.price);
    }

    method CancelEditing()
      modifies this`newPackage, this`editingId
      ensures Valid()
      ensures newPackage == EmptyPackageForm && editingId == None
    {
      newPackage := EmptyPackageForm;
      editingId := None;
    }

    /** The trash button of a package row asks for confirmation. */
    method RequestDeletePackage(id: string)
      modifies this`deleteConfirmationId
      ensures deleteConfirmationId == Some(id)
    {
      deleteConfirmationId := Some(id);
    }

    /** The confirmation dialog's cancel button. */
    method DismissDeletePackage()
      modifies this`deleteConfirmationId
      ensures deleteConfirmationId == None
    {
      deleteConfirmationId := None;
    }

    /**
     * The confirmation dialog's delete button: removes the pending id from the
     * store and closes the dialog; if that package was being edited, the editor
     * is reset too.
     */
    method ConfirmDeletePackage()
      requires Valid()
      modifies store`packages, this`packages, this`deleteConfirmationId, this`newPackage, this`editingId
      ensures Valid()
      ensures !IsSet(old(deleteConfirmationId)) ==>
        && store.packages == old(store.packages) && packages == old(packages)
        && deleteConfirmationId == old(deleteConfirmationId)
        && newPackage == old(newPackage) && editingId == old(editingId)
      ensures IsSet(old(deleteConfirmationId)) ==>
        && store.packages == Without(old(store.packages), PackageId, old(deleteConfirmationId).value)
        && packages == store.packages
        && deleteConfirmationId == None
      ensures IsSet(old(deleteConfirmationId)) && old(editingId) == old(deleteConfirmationId) ==>
        newPackage == EmptyPackageForm && editingId == None
      ensures old(editingId) != old(deleteConfirmationId) ==>
        newPackage == old(newPackage) && editingId == old(editingId)
    {
      if IsSet(deleteConfirmationId) {
        var id := deleteConfirmationId.value;
        store.DeletePackage(id);
        packages := store.GetPackages();
        var wasEditing := editingId == deleteConfirmationId;
        deleteConfirmationId := None;
        if wasEditing {
          CancelEditing();
        }
      }
    }

    method SelectVoucherDuration(duration: string)
      modifies this`voucherDuration
      ensures voucherDuration == duration
    {
      voucherDuration := duration;
    }

    /** Issues a voucher of the selected duration; `n` and `date` are what the store draws. */
    method HandleGenerateVoucher(n: nat, date: string)
      requires 1000 <= n <= 9999
      modifies store`vouchers, this`vouchers
      ensures |store.vouchers| == |old(store.vouchers)| + 1
      ensures store.vouchers[1..] == old(store.vouchers)
      ensures store.vouchers[0] == Voucher(VoucherCode(n), voucherDuration, Unused, date)
      ensures vouchers == store.vouchers
    {
      var _ := store.GenerateVoucher(voucherDuration, n, date);
      vouchers := store.GetVouchers();
    }

    /** Typing into the router form. */
    method EditRouterForm(form: RouterDraft)
      modifies this`newRouter
      ensures newRouter == form
    {
      newRouter := form;
    }

    /**
     * Adding a router: nothing happens while name or IP is empty; otherwise the
     * router is appended to the store and the form is cleared. `n` is the random
     * number in the router's id.
     */
    method HandleAddRouter(n: nat)
      requires n <= 999
      modifies store`routers, this`routers, this`newRouter
      ensures old(newRouter.name) == "" || old(newRouter.ip) == "" ==>
        store.routers == old(store.routers) && routers == old(routers) && newRouter == old(newRouter)
      ensures old(newRouter.name) != "" && old(newRouter.ip) != "" ==>
        && |store.routers| == |old(store.routers)| + 1
        && store.routers[..|old(store.routers)|] == old(store.routers)
        && store.routers[|old(store.routers)|]
           == RouterDevice(RouterIdFor(n), old(newRouter.name), old(newRouter.ip), old(newRouter.location),
                           Offline, "Never")
        && routers == store.routers
        && newRouter == EmptyRouterForm
    {
      if newRouter.name == "" || newRouter.ip == "" {
        return;
      }
      store.AddRouter(newRouter, n);
      routers := store.GetRouters();
      newRouter := EmptyRouterForm;
    }

    method HandleDeleteRouter(id: string)
      modifies store`routers, this`routers
      ensures store.routers == Without(old(store.routers), MockApi.RouterId, id)
      ensures routers == store.routers
    {
      store.DeleteRouter(id);
      routers := store.GetRouters();
    }

    /** The Provision button of a router row opens the script for that router's address. */
    method OpenProvisioning(router: RouterDevice)
      modifies this`selectedRouterIp, this`provisionModalOpen
      ensures selectedRouterIp == router.ip && provisionModalOpen
    {
      selectedRouterIp := router.ip;
      provisionModalOpen := true;
    }

    method CloseProvisioning()
      modifies this`provisionModalOpen
      ensures !provisionModalOpen
    {
      provisionModalOpen := false;
    }

    method EditMacbookIp(ip: string)
      modifies this`macbookIp
      ensures macbookIp == ip
    {
      macbookIp := ip;
    }

    /** The script the provisioning dialog displays. */
    function Script(): (s: string)
      reads this
      ensures '\n' !in macbookIp && '\n' !in selectedRouterIp ==>
        var lines := SplitLines(s);
        |lines| == 17 && lines[1] == BillingServerLine(macbookIp)
        && lines[10] == HotspotProfileLine(selectedRouterIp) && lines[16] == PingLine(macbookIp)
    {
      if '\n' !in macbookIp && '\n' !in selectedRouterIp then
        ScriptContents(macbookIp, selectedRouterIp);
        ProvisioningScript(macbookIp, selectedRouterIp)
      else ProvisioningScript(macbookIp, selectedRouterIp)
    }
  }
}
