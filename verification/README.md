# Furaha Surfing captive portal — a Dafny model

Furaha Surfing sells WiFi access through a captive portal. Guests pick a
package and pay through one of six providers. Admins manage packages,
vouchers, connected users and MikroTik routers from a dashboard. All backend
behaviour lives in an in-memory mock module: five tables that the API
functions change in place. A payment always succeeds and is recorded in the
transaction history.

This project models three parts of that system:

- **The store** (`mock_api.dfy`, module `MockApi`). The five tables
  (packages, transactions, active users, vouchers, routers) are `seq` fields
  of the class `Store`, with one method per API function.
  - Each mutator's `modifies` clause names only its own table, so the other
    four tables are unchanged by construction.
  - `filter` and `map` become the functions `Without` and `UpdateById`. The
    lemmas about them state what a delete or an update does.
  - Random numbers and clock readings are method parameters. Each random
    number is restricted to the range the source draws it from.
- **The checkout form** (`payment_modal.dfy`, module `PaymentModal`).
  - Provider capabilities are predicates: which providers need an email
    address and which support QR.
  - The class `CheckoutForm` holds the selected provider, the contact text,
    the payment mode and the processing flag. Its invariant is that QR mode
    is only reachable for a selected provider that supports QR.
  - The QR payment URL comes with a parser, and a lemma proves the parser
    recovers the provider, the amount and the package id from the URL.
- **The admin dashboard** (`admin.dfy`, module `Admin`).
  - The class `AdminDashboard` holds the package editor, the router form,
    the delete confirmation and the provisioning dialog, and drives a shared
    `Store`.
  - The MikroTik provisioning script is a list of lines joined by newlines.
    A lemma proves that splitting the script at newlines gives back those
    lines. This shows where the billing-server address and the router
    address appear in the script.

Shared pieces:

- `types.dfy` holds the records.
- `text.dfy` holds decimal rendering of integers (what `toString` gives below 1e21), `parseInt` on integer text,
  character search, and line splitting and joining.
- `wrappers.dfy` holds `Option`, which models `null` and optional fields.

JavaScript truthiness is modelled exactly: an empty string counts as
absent.

- `if (editingId)` and `if (deleteConfirmationId)` use `IsSet`.
- `pkg?.id || 'unknown'` in `ProcessPayment` also maps an empty id to
  `"unknown"`.

So if the package being edited has the empty id, saving does not update
it. It appends a new "Custom Plan" package with the form's fields, TZS
and a freshly drawn id. `HandleSavePackage` states this case, and the
precondition of `SaveUneditedKeepsPackages` excludes it.

`processPayment` records a completed transaction and always reports success.
There is no payment orchestration, access grant or reconciliation in the
code.

## Model

| member | source | states |
|---|---|---|
| `MockApi.Store.constructor` | services/mockApi.ts:5-69 | the five tables start with the seeded packages, transactions, users, vouchers and routers |
| `MockApi.SeedVoucherCodesAreGenerated` | services/mockApi.ts:61-64 | the seeded voucher codes have the same shape as generated ones |
| `MockApi.Store.GetPackages` | services/mockApi.ts:73-75 | returns the package table's entries in order; the store is not modified |
| `MockApi.Store.AddPackage` | services/mockApi.ts:77-80 | length grows by one; earlier entries are unchanged; the last entry has every field of the draft plus the random id; only the package table changes |
| `MockApi.Store.UpdatePackage` | services/mockApi.ts:82-84 | the package table becomes `UpdateById` of the old table; only the package table changes |
| `MockApi.UpdateById` | services/mockApi.ts:83 | keeps length and order; an entry whose id matches gets the update's fields over its own; other entries are untouched |
| `MockApi.Merge` | services/mockApi.ts:83 | the object spread `{ ...p, ...updates }`: an update that mentions nothing leaves the package as it was (the per-field rule is `MergeProperties`) |
| `MockApi.MergeProperties` | services/mockApi.ts:83 | an update that mentions no field keeps the package; merging twice equals merging once; for each of the eight fields, a field the update leaves out keeps its value and a field it sets takes the update's value |
| `MockApi.UpdateUnknownId` | services/mockApi.ts:82-84 | updating an id no package carries changes nothing |
| `MockApi.UpdateIdempotent` | services/mockApi.ts:82-84 | applying the same update twice equals applying it once |
| `MockApi.Store.DeletePackage` | services/mockApi.ts:86-88 | the package table becomes the old table without the entries carrying the id; only the package table changes |
| `MockApi.Without` | services/mockApi.ts:87 | no survivor carries the id, even when the id was duplicated; every survivor was in the table; the table never grows |
| `MockApi.WithoutMembership` | services/mockApi.ts:86-88 | an entry survives if and only if it was in the table and its id differs; the same filter serves kicking a user (services/mockApi.ts:141-143) and deleting a router (services/mockApi.ts:175-177) |
| `MockApi.WithoutAppend` | services/mockApi.ts:86-88 | filtering distributes over concatenation, so survivors keep their original relative order; the same filter serves kicking a user (services/mockApi.ts:141-143) and deleting a router (services/mockApi.ts:175-177) |
| `MockApi.WithoutIdempotent` | services/mockApi.ts:86-88 | deleting the same id twice equals deleting it once |
| `MockApi.WithoutAbsent` | services/mockApi.ts:86-88 | deleting an id no entry carries leaves the table as it was |
| `MockApi.Store.ProcessPayment` | services/mockApi.ts:105-131 | always reports success with the confirmation message; returns the transaction it prepends; that transaction is Completed, with the given amount and provider, package id `pkg.id` (or `"unknown"` when pkg is absent or its id is empty), package name, `"Current Device"` as user and `TXN-<n>` as id; only the history changes |
| `MockApi.TransactionId` | services/mockApi.ts:114 | the id starts with `TXN-` and has digits after it (`TransactionIdFormat` gives their exact shape) |
| `MockApi.TransactionIdFormat` | services/mockApi.ts:114 | a transaction id is `TXN-` followed by one to four digits that read back as the drawn number |
| `MockApi.Store.GetRecentTransactions` | services/mockApi.ts:133-135 | returns the history's entries in order; the store is not modified |
| `MockApi.Store.GetActiveUsers` | services/mockApi.ts:137-139 | returns the active users in order; the store is not modified |
| `MockApi.Store.KickUser` | services/mockApi.ts:141-143 | the user table loses exactly the entries carrying the id (see `Without`); only the user table changes |
| `MockApi.Store.GetVouchers` | services/mockApi.ts:145-147 | returns the vouchers in order; the store is not modified |
| `MockApi.Store.GenerateVoucher` | services/mockApi.ts:149-159 | prepends one voucher and returns it: status Unused, the given duration and date, code `FURAHA-<n>`; only the voucher table changes |
| `MockApi.VoucherCode` | services/mockApi.ts:150 | the code starts with `FURAHA-` and has digits after it (`VoucherCodeFormat` gives their exact shape) |
| `MockApi.VoucherCodeFormat` | services/mockApi.ts:150 | a voucher code is `FURAHA-` followed by four digits that read back as the drawn number in [1000, 9999] |
| `MockApi.Store.GetRouters` | services/mockApi.ts:161-163 | returns the routers in order; the store is not modified |
| `MockApi.Store.AddRouter` | services/mockApi.ts:165-173 | appends one router: name, ip and location copied, status Offline, lastSeen `"Never"`, id `r<n>`; earlier entries unchanged; only the router table changes |
| `MockApi.RouterIdFor` | services/mockApi.ts:168 | the id starts with `r` and has digits after it (`RouterIdFormat` gives their exact shape) |
| `MockApi.RouterIdFormat` | services/mockApi.ts:168 | a router id is `r` followed by one to three digits that read back as the drawn number in [0, 999] |
| `MockApi.Store.DeleteRouter` | services/mockApi.ts:175-177 | the router table loses exactly the entries carrying the id; only the router table changes |
| `Types.ProviderOfLabel` | types.ts:12-19 | a label is mapped back only to the provider that carries it |
| `Types.ProviderLabelRoundTrip` | types.ts:12-19 | each provider's string value maps back to that provider and contains no `&` |
| `Text.IntToString` | pages/Admin.tsx:126 | an integer's rendering is canonical integer text: a minus sign exactly for a negative integer, then digits with no leading zero; zero is "0" and there is no "-0" |
| `Text.ParseInt` | pages/Admin.tsx:102 | `parseInt` on integer text: a negative result only for text with a minus sign, and a non-negative one without (`ParseIntOfIntToString` makes it the inverse of `IntToString`) |
| `Text.ParseIntOfIntToString` | pages/Admin.tsx:102 | `parseInt` of an integer's decimal rendering gives back that integer |
| `Text.ParseDigitsOfNatToString` | services/mockApi.ts:150 | the digits of a non-negative integer read back as that integer |
| `Text.SplitJoinLines` | pages/Admin.tsx:760-776 | splitting joined lines at newlines gives back the lines, when no line contains a newline |
| `PaymentModal.ProviderCapabilities` | components/PaymentModal.tsx:37-42 | email is required exactly for PayPal, Paystack and Flutterwave; the other three show a mobile-number field; QR is supported exactly by Pesapal and PawaPay, so no QR provider requires email; every provider has a button |
| `PaymentModal.IsEmailRequired` | components/PaymentModal.tsx:37-40 | holds only for a selected provider, namely exactly PayPal, Paystack and Flutterwave (see `ProviderCapabilities`) |
| `PaymentModal.SupportsQR` | components/PaymentModal.tsx:42 | holds only for a selected provider that does not require email, namely exactly Pesapal and PawaPay (see `ProviderCapabilities`) |
| `PaymentModal.QrPayloadRoundTrip` | components/PaymentModal.tsx:126 | the QR URL `https://furahasurfing.com/pay?p=<provider>&a=<price>&id=<id>` parses back to exactly that provider, price and package id |
| `PaymentModal.QrPayload` | components/PaymentModal.tsx:126 | the QR URL starts with `https://furahasurfing.com/pay?p=` and carries a query after it (`QrPayloadRoundTrip` shows the query holds provider, price and id) |
| `PaymentModal.CheckoutForm.QrValue` | components/PaymentModal.tsx:122-126 | a QR value exists exactly in QR mode; it is then for a provider that supports QR; it is the pay URL of that provider with the package's price and id, and it parses back to exactly those three |
| `PaymentModal.CheckoutForm.SubmitDisabled` | components/PaymentModal.tsx:143 | an enabled button means a provider is chosen and, in input mode, a contact is typed; a chosen provider in QR mode, or with a contact typed, enables it |
| `PaymentModal.CheckoutForm.constructor` | components/PaymentModal.tsx:14-17 | no provider, empty contact, not processing, input mode; the invariant holds |
| `PaymentModal.CheckoutForm.SelectProvider` | components/PaymentModal.tsx:44-48 | sets the provider, clears the contact and resets to input mode, so submit is disabled; keeps the invariant |
| `PaymentModal.CheckoutForm.EditContact` | components/PaymentModal.tsx:106-118 | typing is possible only in the rendered contact field; in input mode submit is then disabled exactly when the text is empty |
| `PaymentModal.CheckoutForm.ChooseMode` | components/PaymentModal.tsx:85-104 | the toggle exists only for a selected provider that supports QR, so QR mode implies such a provider; in QR mode submit is enabled |
| `PaymentModal.CheckoutForm.Submit` | components/PaymentModal.tsx:19-24 | with no provider, does nothing; otherwise starts processing and passes the provider with `"QR_SCAN"` in QR mode or the typed contact in input mode; when submit is enabled the contact passed is never empty |
| `PaymentModal.CheckoutForm.ConfirmSettled` | components/PaymentModal.tsx:25 | processing ends once the callback settles |
| `Admin.FormOf` | pages/Admin.tsx:124-129 | the editor's price field holds non-empty integer text that saving can parse |
| `Admin.EditRoundTrip` | pages/Admin.tsx:99-106 | a package loaded into the editor and saved unchanged is written back unchanged, including its price |
| `Admin.FormUpdate` | pages/Admin.tsx:100-105 | the edit-mode update sets name, speed, duration and the parsed price, and never touches id, currency, description or colour |
| `Admin.SaveUneditedKeepsPackages` | pages/Admin.tsx:99-106 | for a package with a non-empty id, which every package carrying that id equals, saving the unedited form leaves the package table as it was |
| `Admin.ScriptContents` | pages/Admin.tsx:760-776 | the script has 17 lines; the billing server's address is on the `dst-address=` allow line and the final `/ping` line; the router's address is on the `hotspot-address=` line; the six provider lines are fixed |
| `Admin.ScriptLines` | pages/Admin.tsx:760-776 | the script has 17 lines, and lines 2-7 (counting from 0) are the six provider allow lines |
| `Admin.ProvisioningScript` | pages/Admin.tsx:760-776 | the lines joined by newlines, starting with the walled-garden section (`ScriptContents` reads every line back) |
| `Admin.AdminDashboard.Script` | pages/Admin.tsx:760-776 | the dialog's script carries the current billing-server and router addresses on the lines stated by `ScriptContents` |
| `Admin.AdminDashboard.constructor` | pages/Admin.tsx:52-68 | empty tables and forms, voucher duration `"1 Hour"`, no pending delete, dialog closed, default address `192.168.88.254` |
| `Admin.AdminDashboard.FetchData` | pages/Admin.tsx:72-79 | each of the dashboard's copies equals the store's table |
| `Admin.AdminDashboard.HandleKickUser` | pages/Admin.tsx:90-93 | the user is removed from the store and the copy is refreshed |
| `Admin.AdminDashboard.EditPackageForm` | pages/Admin.tsx:331 | the editor holds what was typed |
| `Admin.AdminDashboard.HandleSavePackage` | pages/Admin.tsx:95-121 | with an empty name or price, nothing changes; in edit mode, the edited id gets name, parsed price, speed and duration and edit mode ends; otherwise a package is appended with the form's fields, currency `TZS`, description `Custom Plan` and colour `bg-gray-600`; after a save the form holds four empty strings and the copy is refreshed |
| `Admin.AdminDashboard.StartEditing` | pages/Admin.tsx:123-131 | the editor holds the package's name, speed, duration and price text, which parses back to its price; edit mode is on for its id |
| `Admin.AdminDashboard.CancelEditing` | pages/Admin.tsx:133-136 | the form is empty and edit mode is off |
| `Admin.AdminDashboard.RequestDeletePackage` | pages/Admin.tsx:293 | the package's id is pending deletion |
| `Admin.AdminDashboard.DismissDeletePackage` | pages/Admin.tsx:699 | nothing is pending deletion |
| `Admin.AdminDashboard.ConfirmDeletePackage` | pages/Admin.tsx:138-148 | with nothing pending, nothing changes; otherwise that id is deleted from the store, the copy is refreshed and nothing is pending; the editor is reset only if the deleted id is the one being edited |
| `Admin.AdminDashboard.SelectVoucherDuration` | pages/Admin.tsx:393 | the selected duration is stored |
| `Admin.AdminDashboard.HandleGenerateVoucher` | pages/Admin.tsx:150-153 | a voucher with the selected duration is prepended and the copy refreshed |
| `Admin.AdminDashboard.EditRouterForm` | pages/Admin.tsx:536 | the router form holds what was typed |
| `Admin.AdminDashboard.HandleAddRouter` | pages/Admin.tsx:155-161 | with an empty name or IP, nothing changes; otherwise the router is appended offline under `r<n>`, the copy is refreshed and the form is cleared |
| `Admin.AdminDashboard.HandleDeleteRouter` | pages/Admin.tsx:163-166 | the router is removed from the store and the copy is refreshed |
| `Admin.AdminDashboard.OpenProvisioning` | pages/Admin.tsx:508-511 | the dialog opens for that router's address |
| `Admin.AdminDashboard.CloseProvisioning` | pages/Admin.tsx:796 | the dialog is closed |
| `Admin.AdminDashboard.EditMacbookIp` | pages/Admin.tsx:737 | the billing-server address is stored |

## Left out

- `getRouterStatus` (services/mockApi.ts:90-103) and the polling `setInterval` (pages/Admin.tsx:82-87): random telemetry behind a timer, with no effect on the store.
- Timers and promises: the `setTimeout` delays and the `console.log` in `processPayment`. Only the resulting store change and the resolved value are modelled.
- `Math.random()` and `new Date().toLocaleString()`: the drawn integer, the drawn package id and the date string are parameters. No id or code is claimed unique, because the code does not make them unique.
- `MockApi.Store.AddPackage`: the random id is any string of at most nine base-36 characters. Which such strings `toString(36).substr(2, 9)` can actually produce is not modelled.
- `Text.IntToString`: renders every integer as plain digits. JavaScript's `toString` switches to exponent form (`1e+21`) at magnitude 1e21 and above. So the round trips that rest on it hold in the source only for prices below that magnitude: `Text.ParseIntOfIntToString`, `Admin.EditRoundTrip`, `Admin.SaveUneditedKeepsPackages`, `Admin.AdminDashboard.StartEditing`, `PaymentModal.QrPayloadRoundTrip` and `PaymentModal.CheckoutForm.QrValue`. At 1e21, an unedited save writes price 1 and the QR URL carries `a=1e+21`.
- `Text.ParseInt`: reads any run of digits exactly. JavaScript's `parseInt` gives a double, which is exact only up to 2^53.
- Prices are integers. Fractional `number` values are not modelled, and neither is their rendering by `toString`. `toLocaleString` is display only.
- `Admin.AdminDashboard.EditPackageForm`: the price field must hold integer text or nothing. `parseInt` is modelled only on such text, because text that yields NaN or a partial number is not modelled. The invariant `AdminDashboard.Valid` keeps the price field in that shape.
- `PaymentModal.CheckoutForm.Submit`: the purchase callback (`onConfirm`, pages/Portal.tsx `handlePayment`) is not run. The method returns the arguments it would receive. The callback's settling is the separate method `ConfirmSettled`.
- Rendering: JSX, styles, icons, charts, the `react-qr-code` image, tab switching (`activeTab`) and `copySuccess`. components/PackageCard.tsx, components/Tooltip.tsx and App.tsx are not part of this model.
- Copying the script to the clipboard (pages/Admin.tsx:168-175) is browser I/O.
- The browser's own form validation (`required`, `type="email"`) is not modelled. `CheckoutForm.Submit` models the submit handler as the browser calls it.
