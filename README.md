# Point-of-sale front end: register, checkout, catalog and devices

A Dafny model of the state engine of a browser point-of-sale front end. It covers:

- the register: barcode lookup, the cart updaters, and the sales ledger written at checkout;
- the checkout calculator: subtotal, 7% tax and total;
- the admin panel: the operator catalog with its validated upsert and remove, and the CSV export of the sales;
- the device panel: scanner and printer connection flags, classified by device name, and the simulated scan that feeds the register.

The modules follow the source files:

- `Model` (model.dfy): the shared entities, namely Product, Item (a lookup result), CartLine, Totals and Sale.
- `Checkout` (cart.dfy): the calculator of `src/components/Cart.jsx`. It folds the subtotal from the left, exactly as the source's `reduce` does. It proves that this fold equals a plain reference sum, `LineSum`.
- `App` (app.dfy): `src/App.jsx`. `MockLookup` takes the catalog as a parameter. The cart updaters are pure functions (`WithScan`, `Incremented`, `Decremented`, `Without`). The class `Session` holds the catalog copy, the cart and the ledger, and its methods apply those updaters.
- `Csv` (csv.dfy): the CSV quoting of `src/components/AdminPanel.jsx` (section 2 of RFC 4180, rules 5-7). `Read` is a reference reader for fully quoted files, and `ReadBack` proves that every table written by the export reads back exactly.
- `Admin` (admin.dfy): the rest of `src/components/AdminPanel.jsx`. This is the pure `Saved`/`Upserted`/`Removed` updaters, the export rows, and the class `Panel` with the `products`, `form` and `sales` fields.
- `Devices` (devices.dfy): `src/components/DevicePanel.jsx`. The class `Panel` has the two flags and the simulate-scan input, and its handlers update them step by step.

Money is `real`, so prices, the 0.07 rate and the totals are exact.

Four points of the code are worth stating outright, since a reader might expect otherwise:

- Tax is carried unrounded: `subtotal * taxRate` at `src/components/Cart.jsx:8` keeps every digit, so `Checkout.CheckoutExample` gives tax 0.6699 and total 10.2399 for the 9.57 cart. Rounding to cents happens only in currency display, which is not modelled.
- Negative prices are saved: the validation at `src/components/AdminPanel.jsx:19` checks only that `parseFloat` gives a number (`Admin.NegativePriceAccepted`).
- The startup snapshot also treats names containing "hid" as scanners. Connect events and access requests do not.
- The register keeps its own copy of the catalog. That copy is refreshed only by the `storage` event, which browsers deliver to other documents, so a save in the admin panel reaches a register loaded after it (`Admin.SavedThenLookup`), not the register of the same page until it reloads. In the model `Session.products` is set at construction and never changes.

## Model

| member | source | states |
|---|---|---|
| Checkout.FoldOffset | src/components/Cart.jsx:6 | The left fold of the reduce from any start value equals that value plus the sum of the line amounts. |
| Checkout.Subtotal | src/components/Cart.jsx:6 | The subtotal is the sum of price·qty over all lines (equal to the reference sum), and 0 for an empty cart. |
| Checkout.SubtotalAppend | src/components/Cart.jsx:6 | Appending a line raises the subtotal by exactly that line's price·qty. |
| Checkout.SubtotalNonNegative | src/components/Cart.jsx:6 | With non-negative prices and quantities of at least one, the subtotal is non-negative. |
| Checkout.Payload | src/components/Cart.jsx:6-9 | The checkout payload is computed from the current lines: subtotal is their sum, tax is subtotal·0.07 without rounding, total is subtotal + tax, which is subtotal·1.07. |
| Checkout.CheckoutExample | src/components/Cart.jsx:6-9 | Two chocolate bars at 2.29 and a notebook at 4.99 give subtotal 9.57, tax 0.6699 and total 10.2399. |
| App.FirstMatch | src/App.jsx:9 | `find` gives the index of the first entry with the barcode, and gives none exactly when no entry has it. |
| App.MockLookup | src/App.jsx:7-19 | Lookup is total. It gives the name and price of the first catalog entry with the barcode. With no such entry, it gives the demo table's entry, and otherwise "Unknown Item" at 0. |
| App.CatalogFirst | src/App.jsx:9-10 | For any barcode the catalog holds, lookup returns the name and price of a catalog entry with that barcode, so the demo table is never consulted. |
| App.DemoExamples | src/App.jsx:13-18 | With an empty catalog, the three demo codes give their fixed items, and 000000000000 gives "Unknown Item" at 0. |
| App.Incremented | src/App.jsx:47 | Only the matching lines gain one unit. Everything else is unchanged, and an absent barcode leaves the cart as it is. |
| App.Decremented | src/App.jsx:48-49 | Only the matching lines change, to max(1, qty−1). Quantities of at least one are preserved, and an absent barcode changes nothing. |
| App.IncrementDecrement | src/App.jsx:47-49 | On a cart whose quantities are at least one, increment then decrement of a barcode is the identity. |
| App.Without | src/App.jsx:50 | Exactly the lines with the barcode are dropped. Every other line stays, an absent barcode changes nothing, and distinct barcodes stay distinct. |
| App.WithoutConcat | src/App.jsx:50 | Removal distributes over concatenation, so the surviving lines keep their order. |
| App.WithScan | src/App.jsx:40-44 | A scan of a known barcode adds one unit to its line. A new barcode is appended as a qty-1 line with the lookup result. No stored name or price changes, and distinct barcodes with positive quantities stay so. |
| App.PriceSnapshot | src/App.jsx:39-42 | Once a barcode is in the cart, rescanning it gives the same cart whatever the lookup now returns. |
| App.ScanAddsOne | src/App.jsx:38-44 | On a cart with distinct barcodes, a scan adds exactly one unit of the scanned code and nothing of any other. |
| App.ScannedCounts | src/App.jsx:38-44 | After any sequence of scans from empty, barcodes are distinct, quantities are positive, and there is one line per scanned code, with quantity equal to its number of scans. |
| App.RepeatedScan | src/App.jsx:38-44 | n scans of one code from empty give the single line with that code's lookup result and quantity n. |
| App.Session.constructor | src/App.jsx:23-27 | A session starts with the saved catalog and ledger and an empty cart. |
| App.Session.AddByBarcode | src/App.jsx:38-45 | The cart becomes the scan of the barcode, with its lookup against the session's catalog. Catalog and ledger are unchanged. |
| App.Session.Increment | src/App.jsx:47 | The cart becomes its incremented form. Nothing else changes. |
| App.Session.Decrement | src/App.jsx:48-49 | The cart becomes its decremented form. Nothing else changes. |
| App.Session.Remove | src/App.jsx:50 | The cart loses the lines with the barcode. Nothing else changes. |
| App.Session.Clear | src/App.jsx:51 | The cart becomes empty. Nothing else changes. |
| App.Session.OnCheckout | src/App.jsx:53-69 | Exactly one record is appended at the end of the ledger, holding the date, the current cart and the given totals. Earlier records are unchanged and the cart is then empty. |
| App.Session.CheckoutAndPrint | src/components/Cart.jsx:74-83 | On an empty cart the button does nothing. Otherwise one record is appended with the totals computed from the cart, and the cart is emptied. |
| App.Session.SimulateScan | src/App.jsx:93 | A simulated scan adds the trimmed code to the cart and clears the input when the code is non-empty. Otherwise it changes nothing. It never touches the device flags or the WebHID support flag. |
| Csv.Join | src/components/AdminPanel.jsx:48 | `join` of a single part is that part. |
| Csv.JoinAppend | src/components/AdminPanel.jsx:48 | Joining one more part adds the separator and then the part. |
| Csv.Quote | src/components/AdminPanel.jsx:48 | A written field starts and ends with a double quote. |
| Csv.CollapseEscape | src/components/AdminPanel.jsx:48 | Collapsing doubled quotes undoes the doubling exactly. |
| Csv.UnquoteQuote | src/components/AdminPanel.jsx:48 | Stripping the outer quotes of a written field and collapsing `""` gives back the original value. |
| Csv.ReadBack | src/components/AdminPanel.jsx:48 | A CSV reader gets back exactly the table that was written, for any non-empty table of non-empty rows, whatever quotes, commas or line feeds its fields contain. |
| Csv.NatText | src/components/AdminPanel.jsx:42 | The text of a quantity is a non-empty string of decimal digits without a leading zero. |
| Csv.IntText | src/components/AdminPanel.jsx:42 | The text of an integer starts with a minus sign exactly when it is negative. |
| Csv.NatTextValue | src/components/AdminPanel.jsx:42 | The digits written for a quantity denote that quantity. |
| Csv.IntTextValue | src/components/AdminPanel.jsx:42 | The digits written for an integer, after the minus sign when there is one, denote its absolute value. |
| Admin.Replaced | src/components/AdminPanel.jsx:23 | Entries with the barcode get the new name and price in place. The others are unchanged and the length is kept. |
| Admin.Upserted | src/components/AdminPanel.jsx:20-26 | A known barcode keeps length and positions and changes only the matching entries. A new barcode is appended at the end. The barcode is present afterwards, no other barcode appears or disappears, and distinct barcodes stay distinct. |
| Admin.Saved | src/components/AdminPanel.jsx:18-28 | With an empty barcode or name or an unparsable price, catalog and form are unchanged. Otherwise the entry is upserted with the parsed price and the form is reset to empty fields. |
| Admin.SavedThenLookup | src/components/AdminPanel.jsx:20-26 | A lookup against the catalog after a valid save (what a register loaded after the save sees) resolves the saved barcode to the saved name and price. |
| Admin.NegativePriceAccepted | src/components/AdminPanel.jsx:19 | A price of -1 passes validation and is saved. |
| Admin.Removed | src/components/AdminPanel.jsx:30 | Every entry with the barcode is gone, all other entries remain, and an absent barcode changes nothing. |
| Admin.RemovedUnique | src/components/AdminPanel.jsx:30 | A remove keeps the catalog's barcodes distinct. |
| Admin.RemovedConcat | src/components/AdminPanel.jsx:30 | Removal distributes over concatenation, so the survivors keep their order. |
| Admin.ItemsCellAppend | src/components/AdminPanel.jsx:42 | The items cell is each line rendered as `name x<qty>`, joined by "; ". |
| Admin.SaleRow | src/components/AdminPanel.jsx:40-46 | A sale row lines up with the header: the ISO date, the items cell, then the subtotal, the tax and the total. |
| Admin.SalesRows | src/components/AdminPanel.jsx:38-47 | The header row [Date, Items, Subtotal, Tax, Total] is followed by one five-cell row per sale, in ledger order. |
| Admin.SalesCsvReadsBack | src/components/AdminPanel.jsx:37-48 | The exported text reads back as exactly the header and sale rows. |
| Admin.Panel.constructor | src/components/AdminPanel.jsx:7-16 | The panel starts with the saved catalog and ledger and an empty form. |
| Admin.Panel.Edit | src/components/AdminPanel.jsx:78-98 | Typing sets the form fields. Catalog and ledger are unchanged. |
| Admin.Panel.AddOrUpdate | src/components/AdminPanel.jsx:18-28 | Catalog and form become the result of the validated save. Distinct barcodes stay distinct. |
| Admin.Panel.Remove | src/components/AdminPanel.jsx:30 | The catalog loses the entries with the barcode and keeps its barcodes distinct. Form and ledger are unchanged. |
| Admin.Panel.DownloadCsv | src/components/AdminPanel.jsx:37-56 | The text handed to the download is the export of the panel's ledger, and it reads back as its rows. |
| Devices.LowerChar | src/components/DevicePanel.jsx:25 | 'A'..'Z' become the matching letters of 'a'..'z', every other character is kept, and no result is an upper-case letter. |
| Devices.Lower | src/components/DevicePanel.jsx:25 | Lowercasing keeps the length and lowercases each character. |
| Devices.LowerIdempotent | src/components/DevicePanel.jsx:25 | Lowercasing twice is lowercasing once. |
| Devices.ContainsAt | src/components/DevicePanel.jsx:26-27 | `includes` holds exactly when the token occurs at some position of the name. |
| Devices.LowerCharMatch | src/components/DevicePanel.jsx:25 | A lowercased character equals a token character without upper case exactly when the two match ignoring case. |
| Devices.LowerContainsI | src/components/DevicePanel.jsx:18-27 | For a token without upper-case letters, `includes` on the lowercased name holds exactly when the token occurs in the name ignoring case. |
| Devices.RolesIgnoreCase | src/components/DevicePanel.jsx:18-27 | Lowercasing and then searching for the role tokens gives exactly the case-insensitive match of the tokens against the name as given, for the hotplug roles and the `/i` snapshot pattern alike. |
| Devices.ScannerImpliesSnapshot | src/components/DevicePanel.jsx:18-27 | A scanner by the connect tokens is a scanner by the snapshot pattern. "HID" counts at the snapshot and not on connect. |
| Devices.BothRoles | src/components/DevicePanel.jsx:24-28 | Some name is both a scanner and a printer, so one device may set both flags. |
| Devices.MissingNameHasNoRole | src/components/DevicePanel.jsx:25 | A device without a product name has no role. |
| Devices.LeadingSpaces | src/components/DevicePanel.jsx:74 | It counts exactly the white-space prefix. |
| Devices.TrailingSpaces | src/components/DevicePanel.jsx:74 | It counts exactly the white-space suffix. |
| Devices.Trim | src/components/DevicePanel.jsx:74 | The result is a slice of the input with only white space before and after it, and it neither starts nor ends with white space: the input with its white-space ends removed. |
| Devices.CanSimulateIff | src/components/DevicePanel.jsx:74 | The Add button is enabled exactly when the input holds a non-white-space character. |
| Devices.TrimIdempotent | src/components/DevicePanel.jsx:78 | Trimming twice is trimming once. |
| Devices.Panel.constructor | src/components/DevicePanel.jsx:11-22 | On mount with WebHID, the scanner flag records whether a granted device matches scanner, barcode or hid, and the printer flag whether one matches printer or receipt. Without WebHID both flags stay false. |
| Devices.Panel.HandleConnect | src/components/DevicePanel.jsx:24-28 | A connect event can only turn flags on: printer for printer/receipt names, scanner for scanner/barcode names, possibly both. A name with no token, or any name without WebHID, changes nothing. |
| Devices.Panel.HandleDisconnect | src/components/DevicePanel.jsx:30-34 | The mirror of connect. Flags can only turn off, for the same tokens. |
| Devices.Panel.RequestScanner | src/components/DevicePanel.jsx:44-56 | It only ever turns the scanner flag on, when the first picked device is named like a scanner. It never touches the printer flag, and cancellation or an empty pick changes nothing. |
| Devices.Panel.RequestPrinter | src/components/DevicePanel.jsx:58-70 | The same for the printer flag and printer/receipt names. |
| Devices.Panel.SetSimBarcode | src/components/DevicePanel.jsx:145 | Typing sets the simulate-scan input and nothing else. |
| Devices.Panel.HandleSimulate | src/components/DevicePanel.jsx:76-81 | A non-empty trimmed input is handed on and the input is reset to "". Input that is empty or only white space does nothing, and the flags never change. |

## Left out

- Rendering (JSX, Tailwind), the Hero component with its remote 3D scene, and currency display through `Intl.NumberFormat`. These are presentation and a locale library.
- Persistence: `localStorage` reads and writes, `JSON.parse`/`JSON.stringify`, and the `storage` event that reloads the register's catalog copy. The catalog and the ledger are in-memory sequences, and the saved values are constructor parameters.
- `window.print()` after checkout, and the Blob/URL/anchor download of `sales.csv`. These are output sinks. The model stops at the CSV text.
- The WebHID plumbing: `navigator.hid`, promises and listener registration. Support is a boolean. The snapshot is applied at mount, and the handlers are synchronous transitions that take the device or the request outcome as input. The order in which the snapshot promise resolves relative to hotplug events is not modelled.
- Floating point: prices, 0.07 and the sums are exact reals, so IEEE rounding of `subtotal * 0.07` is not captured.
- `parseFloat` is a parameter that gives None where the source gets NaN. Its prefix-parsing rules are not modelled.
- `Date.now()` is a parameter. `toISOString()` and `String(number)` for the amount cells are function parameters, so the date and amount cells are opaque strings.
- Admin.Saved: the validity test is modelled as "the parse gives a value". JavaScript also accepts "Infinity" there, which the abstract parse may or may not return.
- Csv.IntText: writes plain decimal digits. JavaScript switches to exponent notation from 10^21, which no quantity reaches.
- The `demo[barcode]` prototype lookup: in JavaScript, keys such as "constructor" are truthy. The demo table is a three-entry map.
- Lowercasing and the `/i` flag are modelled for ASCII letters only.
- The simulate-scan box is rendered only when WebHID is supported. The handler itself does not check this, and the model follows the handler.
