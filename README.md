# shopapp billing core, modelled in Dafny

shopapp is a browser point-of-sale application for a mobile and electronics
shop. This project models the part of it that has rules and state:

- **the cart engine of the billing screen**: adding products, optionally
  bound to a scanned serial number (IMEI); changing quantities and discounts;
  removing lines;
- **the bill totals**: per-line discount and GST, the sums, rounding to whole
  rupees, and the visible round-off;
- **resolution of the Enter key in the search box**, and the suggestion list
  under it;
- **checkout**: the invoice snapshot, and its commit to the store, which
  prepends it to the history, lowers stock and removes sold serials from the
  serial pools;
- **the share messages**: the template filler, the default templates, and
  the lookup of the customer's e-mail address;
- **the store's helpers**: defaults for missing keys, customers, the login
  session, backup and restore;
- **the dashboard**: headline figures, the per-day sales chart and the
  stock table;
- **the search filters** of the customer and inventory screens.

Modules:

| file | module | contents |
|---|---|---|
| types.dfy | Types | the records of the system: products, customers, cart lines, invoices, settings, users |
| collections.dfy | Collections | `filter`, `findIndex` and the subsequence relation |
| text.dfy | Text | `toLowerCase` (ASCII), `startsWith`, `includes`, global literal `replace`, `split('T')[0]`, `slice`, numerals |
| billing.dfy | Billing | the cart updaters as pure functions of the previous cart, the totals (a specification function and the accumulating loop), search, Enter resolution, the invoice snapshot, placeholders |
| db.dfy | Db | the seed data, the effect of a sale on the catalogue, and class `Store`: one optional field per storage key, with the store's methods |
| pos.dfy | PointOfSale | class `BillingScreen`: the screen's state and its event handlers |
| dashboard.dfy | Dashboard | stats, the sales chart, and an in-place insertion sort for the stock table |
| customers.dfy | Customers | the customer search |
| inventory.dfy | Inventory | the stock search |

The string built-ins the core calls are plain definitions in Text: `Text.Lower` is `toLowerCase` on ASCII letters, `Text.Contains` is `includes`, `Text.StartsWith` is `startsWith`, and `Text.IntText` is `toString` of a whole number (via `Text.Decimal`, with a leading `-` for negatives).

Modelling choices:

- **Money.** Money is an exact `real`; `Invoice.totalAmount` is an `int`,
  because checkout stores only the rounded grand total.
- **Rounding.** `Math.round(x)` is `floor(x + 1/2)`: halves go toward
  positive infinity, so −2.5 rounds to −2 (`Billing.RoundHalves`). This is
  not "round half away from zero", although the two agree on every
  non-negative total; the model follows the code.
- **Truthiness.** An optional string is truthy when present and non-empty.
  An empty serial therefore counts as no serial, in `addToCart` and in
  `saveInvoice` alike.
- **Nondeterministic inputs.** `crypto.randomUUID()`, `Date.now()` and
  `new Date().toISOString()` become parameters (`freshId`, `nowMillis`,
  `isoNow`, `nowIso`). Line ids are assumed fresh, as a precondition.
- **Storage.** `localStorage` becomes the fields of `Db.Store`, with `None`
  for a missing key. JSON stays abstract: `restoreBackup` receives the
  parsed document, or `None` when parsing failed. The session key is only
  written by `login` and `logout`, so it always holds a roster user
  (`Db.Store.SessionValid`).
- **Chart days.** The seven calendar days of the chart are an input.

## Model

| member | source | states |
|---|---|---|
| Billing.AddToCart | components/BillingPOS.tsx:49-87 | out of stock leaves the cart unchanged; an add grows the cart by at most one line; each existing line is kept or gains exactly one unit; an appended line is a fresh quantity-1 line carrying the truthy scanned serial or none |
| Billing.AddRejectsOutOfStock | components/BillingPOS.tsx:49-53 | adding a product whose stock is at most 0 leaves the cart unchanged |
| Billing.AddRejectsDuplicateImei | components/BillingPOS.tsx:57-62 | adding a serial that some line already holds leaves the cart unchanged |
| Billing.AddImeiAppends | components/BillingPOS.tsx:63-69 | a new serial appends exactly one line: quantity 1, discount 0, bound to that serial; the earlier lines are untouched |
| Billing.AddMerges | components/BillingPOS.tsx:72-83 | a non-serial add onto the first non-serial line of the same product: at the stock limit nothing changes; otherwise only that line gains one unit and the line count is unchanged |
| Billing.AddAppendsPlain | components/BillingPOS.tsx:84 | with no non-serial line of the product, one plain line is appended with quantity 1 and discount 0 |
| Billing.AddPreservesWellFormed | components/BillingPOS.tsx:49-87 | every add keeps the cart invariant: distinct line ids, no serial on two lines, serial lines of quantity 1, quantities ≥ 1, discounts in [0, 100] |
| Billing.AddPreservesWithinStock | components/BillingPOS.tsx:72-84 | every add keeps each line's quantity within its stock snapshot, provided the lines it may merge into recorded at least the product's current stock |
| Billing.AddNeverDuplicatesImei | components/BillingPOS.tsx:57-69 | after an add, no two lines carry the same serial |
| Billing.Max | components/BillingPOS.tsx:95 | `Math.max` is an upper bound of both arguments and equal to one of them |
| Billing.QuantityUpdated | components/BillingPOS.tsx:91-100 | a serial line never grows; the line is kept or takes `max(1, q + delta)`; a change stays within the stock snapshot; an in-stock change is applied |
| Billing.UpdateQuantity | components/BillingPOS.tsx:89-103 | length, order and non-target lines are kept; a changed line gets `max(1, q + delta)` and only within its stock; a serial line never grows; an allowed change is applied |
| Billing.UpdateQuantityPreserves | components/BillingPOS.tsx:89-103 | the cart invariant and the stock bound survive `updateQuantity` |
| Billing.ClampDiscount | components/BillingPOS.tsx:107 | `min(100, max(0, d))` lies in [0, 100], is `d` inside the range and the nearer bound outside it |
| Billing.UpdateDiscount | components/BillingPOS.tsx:105-109 | every target line becomes that line with discount `min(100, max(0, d))`, which is in [0, 100] and `d` itself when `d` is in range; other lines and the length are unchanged |
| Billing.UpdateDiscountPreserves | components/BillingPOS.tsx:105-109 | the cart invariant and the stock bound survive `updateDiscount` |
| Billing.RemoveFromCart | components/BillingPOS.tsx:111-113 | exactly the lines with other ids remain, in their order |
| Billing.RemovePreserves | components/BillingPOS.tsx:111-113 | the cart invariant and the stock bound survive `removeFromCart` |
| Billing.Round | components/BillingPOS.tsx:139 | `Math.round` lands within half a unit of its argument, halves going up |
| Billing.RoundUnique | components/BillingPOS.tsx:139 | that window determines the rounded value |
| Billing.RoundHalves | components/BillingPOS.tsx:139 | 2.5 rounds to 3, −2.5 to −2 and −0.5 to 0 |
| Billing.TotalsOf | components/BillingPOS.tsx:122-143 | the discounted subtotal plus the discount is the gross value; the grand total is the net total plus a round-off in (−1/2, 1/2] |
| Billing.ComputeTotals | components/BillingPOS.tsx:122-143 | the `forEach` accumulation yields exactly the totals of the cart (`TotalsOf`) |
| Billing.GrossSplits | components/BillingPOS.tsx:128-134 | the discounted line values plus the discounts add up to Σ price × quantity |
| Billing.TotalsIdentities | components/BillingPOS.tsx:127-142 | subtotal + discount = gross; net = subtotal + tax; grand total = round(net); grand = net + round-off with round-off in (−1/2, 1/2] |
| Billing.TotalsBounds | components/BillingPOS.tsx:127-136 | with non-negative prices, rates and clamped discounts, the sums are non-negative and the discount is at most the gross value |
| Billing.TotalsNonNegative | components/BillingPOS.tsx:122-143 | under the same conditions no bill amount, grand total included, is negative |
| Billing.ScenarioPhone | components/BillingPOS.tsx:122-143 | one item at 79900 with 18% GST: tax 14382, total 94282, round-off 0 |
| Billing.ScenarioCable | components/BillingPOS.tsx:122-143 | three at 999, 10% off, 18% GST: discount 299.7, taxable 2697.3, tax 485.514, net 3182.814, charged 3183, round-off 0.186 |
| Billing.SearchMatches | components/BillingPOS.tsx:219-224 | every product matches the empty query, and a product matches its own exact barcode or id |
| Billing.SearchIgnoresQueryCase | components/BillingPOS.tsx:218-224 | lower-casing the query first does not change which products match |
| Billing.FilteredProducts | components/BillingPOS.tsx:216-226 | empty for an empty query; at most ten; a subsequence of the catalogue; every entry matches; complete when fewer than ten |
| Billing.ResolveEnter | components/BillingPOS.tsx:228-253 | a resolved request names a catalogue product, and a serial it carries is the query itself and owned by that product |
| Billing.ResolveEnterSerial | components/BillingPOS.tsx:228-253 | Enter picks a catalogue product; it binds a serial exactly when some product's pool holds the query, that serial is the query, and the product is the first owner |
| Billing.ResolveEnterFallbacks | components/BillingPOS.tsx:239-251 | with no serial owner: the first product whose barcode or id equals the query is added without a serial; failing that, the only suggestion is added without a serial, and with zero or several suggestions nothing happens |
| Billing.EnterOnSerialAddsItsLine | components/BillingPOS.tsx:232-237 | a typed serial on sale and not in the cart resolves to its product and, when in stock, appends a line bound to it |
| Billing.InvoiceId | components/BillingPOS.tsx:154 | the id is `INV-` followed by one to six digits |
| Billing.InvoiceIdValue | components/BillingPOS.tsx:154 | the digits of the id denote the clock reading modulo 10^6 |
| Billing.InvoiceIdsCollide | components/BillingPOS.tsx:154 | the id is not unique: clock readings 1234567 and 2234567 both give `INV-234567` |
| Billing.CheckoutInvoice | components/BillingPOS.tsx:153-165 | the invoice has id `InvoiceId(now)` and date `isoNow`, holds the cart, is Paid, has the payment mode and the customer's name and mobile; its subtotal, discount, tax and amount are the cart's totals, so amount = round(subtotal + tax) and subtotal + discount = gross |
| Billing.CreateInvoice | components/BillingPOS.tsx:153-165 | the built invoice, using the accumulated totals, is `CheckoutInvoice` |
| Billing.ReplacePlaceholders | components/BillingPOS.tsx:181-188 | a template without any '{' comes back unchanged |
| Billing.PlaceholdersAbsent | components/BillingPOS.tsx:181-188 | a template with none of the five tokens comes back unchanged |
| Billing.PlaceholdersInOrder | components/BillingPOS.tsx:181-188 | the replacements run in order: a customer name `{id}` becomes the invoice id |
| Billing.PlaceholdersApart | components/BillingPOS.tsx:183-187 | none of the five tokens occurs inside another |
| Billing.SegmentPass | components/BillingPOS.tsx:183-187 | one pass over brace-free text followed by a slot fills the slot when it is the pass's token and keeps it when it holds no occurrence of the token |
| Billing.LeadThenId | components/BillingPOS.tsx:181-188 | a brace-free text followed by `{id}` becomes that text followed by the invoice id, when the id holds no token |
| Billing.ShareText | components/BillingPOS.tsx:190-206 | a set, non-empty template setting is filled in; an absent or empty one falls back to the default template; a set template without braces is sent verbatim |
| Billing.LeadThenCustomer | components/BillingPOS.tsx:181-188 | a brace-free text followed by `{customer}` becomes that text followed by the customer's name, when the name holds no token |
| Billing.SetTemplateWins | components/BillingPOS.tsx:190-193 | a WhatsApp template setting "Hi {customer}" is used instead of the default and reads "Hi " followed by the customer's name |
| PointOfSale.WhatsappPass | components/BillingPOS.tsx:183-187 | one pass over the shape of the stored WhatsApp template fills exactly the slots holding the pass's token and keeps the text and the other slots |
| PointOfSale.DefaultWhatsappMessage | services/db.ts:17 | with the shop's default settings, the WhatsApp message is "Dear <name>, thank you for purchasing from <shop>. Your Invoice #<id> of Rs. <total> is generated on <date>. Visit again!" when none of those holds a token |
| Billing.DefaultEmail | components/BillingPOS.tsx:204-205 | with neither e-mail setting, the subject is "Invoice " and the body "Here is your invoice ", each followed by the invoice id |
| Text.ReplaceAll | components/BillingPOS.tsx:183-187 | a replacement no longer than the token never lengthens the text, one no shorter never shortens it |
| Text.ReplaceAllHits | components/BillingPOS.tsx:183-187 | the first occurrence of the token, one that no earlier occurrence starts before or overlaps, is replaced by the value and the scan resumes right after it |
| Text.ReplaceAllSplit | components/BillingPOS.tsx:183-187 | a text can be replaced in two parts when the second part starts with a character that cannot continue the token |
| Text.ReplaceAllAbsent | components/BillingPOS.tsx:183-187 | a global replace of an absent token changes nothing |
| Text.ReplaceAllSelf | components/BillingPOS.tsx:183-187 | replacing a token by itself changes nothing |
| Text.BeforeT | components/BillingPOS.tsx:186 | `split('T')[0]` is a prefix without 'T' that ends at the first 'T' or at the end |
| Text.Decimal | components/BillingPOS.tsx:154 | `toString` of a natural number is a non-empty digit string without leading zeros |
| Text.DecimalValue | components/BillingPOS.tsx:154 | reading the numeral back gives the number |
| Text.LastChars | components/BillingPOS.tsx:154 | `slice(-k)` is the last `min(k, length)` characters |
| Text.LastDigits | components/BillingPOS.tsx:154 | the last k characters of a numeral denote its value modulo 10^k |
| Text.NumeralSplit | components/BillingPOS.tsx:154 | a numeral cut in two denotes the front's value times 10^(length of the back) plus the back's value |
| Text.NumeralBound | components/BillingPOS.tsx:154 | a numeral of length m denotes less than 10^m |
| Text.DropFirst | components/Dashboard.tsx:33 | `slice(k)` drops the first k characters: its length is the rest, and its characters are those from position k on |
| Db.FindUser | services/db.ts:126-127 | the roster lookup succeeds for exactly "admin" and "staff" and returns the user of that name |
| Db.SellLine | services/db.ts:101-109 | only stock and pool change; stock drops by the line's quantity; a pool loses the line's truthy serial and is otherwise kept; no pool stays no pool |
| Db.ApplyLine | services/db.ts:98-110 | one line applied keeps the catalogue's length |
| Db.ApplyLines | services/db.ts:97-111 | all lines applied keep the catalogue's length |
| Db.ApplyLinesShape | services/db.ts:97-112 | after a sale the catalogue keeps its length, order and ids; only stock and serial pools differ |
| Db.ApplyLinesEffect | services/db.ts:98-111 | for the entry `findIndex` finds, stock drops by the units sold and the pool loses the serials sold; every other entry is unchanged |
| Db.StockConservation | services/db.ts:99-102 | with distinct ids, each product's stock goes down by the units of it on the invoice, with no clamping at zero |
| Db.SoldImeiRemoved | services/db.ts:104-109 | a pool loses exactly the sold serials and keeps the rest in order; a product without a pool gets none |
| Db.LineImeiIsSold | services/db.ts:105-108 | the serial of every serial line is among those removed |
| Db.Restored | services/db.ts:159-162 | a present key overwrites, an absent key keeps the old value |
| Db.Store.GetProducts | services/db.ts:60-63 | a missing key yields the seed catalogue |
| Db.Store.GetCustomers | services/db.ts:70-73 | a missing key yields the seed customers |
| Db.Store.GetInvoices | services/db.ts:86-89 | a missing key yields no invoices |
| Db.Store.GetSettings | services/db.ts:116-119 | a missing key yields the default settings |
| Db.Store.SaveProducts | services/db.ts:65-67 | the catalogue key is written |
| Db.Store.SaveCustomers | services/db.ts:75-77 | the customer key is written |
| Db.Store.SaveSettings | services/db.ts:121-123 | the settings key is written |
| Db.Store.AddCustomer | services/db.ts:79-83 | the customer is appended after the existing customers, which are unchanged |
| Db.Store.SaveInvoice | services/db.ts:91-113 | the history becomes `[invoice] + old history`; the catalogue becomes the sale's effect on the old catalogue, computed by the in-place loop |
| Db.Store.Login | services/db.ts:125-132 | returns the roster user of that exact name and stores it as the session, so that the current user is then that user; otherwise returns nothing and keeps the session; the session stays a roster user |
| Db.Store.GetCurrentUser | services/db.ts:134-137 | returns exactly the stored session; when there is one, it is the roster user of that name |
| Db.Store.Logout | services/db.ts:139-141 | afterwards `getCurrentUser` returns nothing, and the session invariant holds |
| Db.Store.CreateBackup | services/db.ts:145-154 | the backup holds the four current collections, defaults included, and the timestamp |
| Db.Store.RestoreBackup | services/db.ts:156-168 | a parse failure returns false and writes nothing; otherwise returns true and overwrites exactly the keys present |
| Db.Store.RestoreOwnBackup | services/db.ts:145-168 | restoring a fresh backup succeeds and leaves all four collections as they read before |
| PointOfSale.FindWalkIn | components/BillingPOS.tsx:42 | finds a customer named "Walk-in Customer" if and only if the list has one, and then the first such customer |
| PointOfSale.EmailFor | components/BillingPOS.tsx:201-202 | the address is the e-mail of the first customer with the invoice's mobile; a non-empty address comes from such a customer; with no such customer it is empty |
| PointOfSale.BillingScreen.LoadData | components/BillingPOS.tsx:35-45 | reloads catalogue, settings and customers; with no customer selected, selects the walk-in customer if present |
| PointOfSale.BillingScreen.AddToCart | components/BillingPOS.tsx:49-87 | the cart is the add's result and stays well formed; the search box is cleared unless out of stock; the stock bound is kept when the lines the add may merge into recorded at least the product's current stock (`SnapshotsCover`) |
| PointOfSale.BillingScreen.UpdateQuantity | components/BillingPOS.tsx:89-103 | the cart is the update's result and stays well formed and within stock |
| PointOfSale.BillingScreen.UpdateDiscount | components/BillingPOS.tsx:105-109 | the cart is the update's result and stays well formed and within stock |
| PointOfSale.BillingScreen.RemoveFromCart | components/BillingPOS.tsx:111-113 | the cart is the removal's result and stays well formed and within stock |
| PointOfSale.BillingScreen.ClearCart | components/BillingPOS.tsx:115-119 | a confirmed clear empties the cart; otherwise it is unchanged |
| PointOfSale.BillingScreen.HandleSearchEnter | components/BillingPOS.tsx:228-253 | Enter runs `addToCart` with the resolved request, or does nothing when nothing resolves |
| PointOfSale.BillingScreen.HandleCheckout | components/BillingPOS.tsx:146-173 | empty cart or no customer: nothing changes. Otherwise the invoice shown is `CheckoutInvoice`, prepended to the history; stock and serials are updated; the cart is emptied; the data reloaded |
| PointOfSale.BillingScreen.CompleteSale | components/BillingPOS.tsx:166-172 | the invoice is prepended to the history and its lines applied to the stored catalogue; it is shown; the cart is empty and the catalogue, settings and customers are reloaded |
| PointOfSale.BillingScreen.HandleAddCustomer | components/BillingPOS.tsx:255-270 | a missing name or mobile changes nothing; otherwise the customer is appended to the store, the list reloaded and the new customer selected |
| Dashboard.SumAmounts | components/Dashboard.tsx:11 | with non-negative amounts, total sales are non-negative and at least each invoice's amount |
| Dashboard.SumAmountsAppend | components/Dashboard.tsx:11 | total sales are additive over concatenated histories |
| Dashboard.SubsequenceSumBound | components/Dashboard.tsx:15-17 | with non-negative amounts, a sub-history never sums to more |
| Dashboard.DaySales | components/Dashboard.tsx:14-17 | a day no invoice is dated on sells 0; a day every invoice is dated on sells the total |
| Dashboard.DaySalesBound | components/Dashboard.tsx:14-17 | with non-negative amounts, a day's sales lie between 0 and total sales |
| Dashboard.LowStockCount | components/Dashboard.tsx:12 | the count is at most the catalogue size; it is 0 iff no product is below 20, and the full size iff all are |
| Dashboard.LowStockCountCons | components/Dashboard.tsx:12 | each product below 20 units adds one to the count, and no other product does |
| Dashboard.StatsOf | components/Dashboard.tsx:10-20 | total sales are the sum of all invoice amounts, today's sales the sum over the invoices whose date starts with today's date, low stock the number of products below 20 units, and the invoice count the history length; low stock is at most the catalogue size; with non-negative amounts, 0 ≤ today's sales ≤ total sales |
| Dashboard.StatsAfterSale | components/Dashboard.tsx:10-20 | saving an invoice adds its amount to revenue, one to the count, and its amount to today's sales exactly when dated today |
| Dashboard.SalesData | components/Dashboard.tsx:22-35 | one point per day, labelled with the date minus its first five characters, valued at that day's sales |
| Dashboard.ChartWithinRevenue | components/Dashboard.tsx:22-35 | for distinct days of equal length and non-negative amounts, the bars add up to at most total revenue |
| Dashboard.SortByStock | components/Dashboard.tsx:119 | the in-place sort leaves the array sorted by ascending stock and a permutation of its contents |
| Dashboard.PrefixMinima | components/Dashboard.tsx:119 | in a sorted sequence, no element beyond a prefix has less stock than one inside it |
| Dashboard.StockTable | components/Dashboard.tsx:119 | min(8, n) rows, sorted, drawn from the catalogue, none with more stock than any product left out |
| Customers.CustomerMatches | components/Customers.tsx:10-13 | every customer matches the empty query, and a customer matches its exact mobile number |
| Customers.FilterCustomers | components/Customers.tsx:10-13 | the result keeps directory order, and a customer is in it iff its name contains the query ignoring case or its mobile contains it as typed |
| Customers.EmptyQueryKeepsAll | components/Customers.tsx:10-13 | an empty query keeps every customer |
| Customers.NameMatchIgnoresCase | components/BillingPOS.tsx:619 | lower-casing the query does not change the name test |
| Customers.MobileMatchIsCaseSensitive | components/Customers.tsx:12 | the mobile "ext9" is found by "ext9" but not by "EXT9" |
| Inventory.ProductMatches | components/Inventory.tsx:10-16 | every product matches the empty search, and a product matches its exact barcode |
| Inventory.FilterProducts | components/Inventory.tsx:10-16 | the result keeps catalogue order, and a product is in it iff name, brand, category or barcode contains the query ignoring case, or a serial contains it as typed |
| Inventory.EmptySearchKeepsAll | components/Inventory.tsx:10-16 | an empty search keeps every product |
| Inventory.MissingFieldsNeverMatch | components/Inventory.tsx:12-15 | without barcode and serial pool only name, brand or category can match |
| Inventory.SerialSearchIsCaseSensitive | components/Inventory.tsx:15 | a serial holding an upper-case letter is found as typed, but not by the billing list's serial test, which lower-cases the query |

## Left out

- Storage and JSON. `localStorage` and `JSON.parse`/`JSON.stringify` are not modelled: each key is an optional field of `Db.Store`, and a parse result is an `Option`. Failures of storage writes are not modelled: quota errors, and `restoreBackup` failing after some keys were already written.
- Nondeterministic inputs. Random UUIDs and clock readings are parameters. Freshness of a line id is a precondition (`Billing.FreshCartId`), not a property of `crypto.randomUUID`.
- Browser side effects are not modelled: `alert`, `window.confirm`, `window.open`, `window.print`, focus handling and the new-bill reset. `window.confirm`'s answer is the `confirmed` parameter of `ClearCart`.
- Sharing URLs. The template fallbacks of `handleShareWhatsapp` and `handleShareEmail` are modelled (`Billing.ShareText`), as is `handleShareEmail`'s lookup of the address by mobile (`PointOfSale.EmailFor`). Building the `wa.me` and `mailto` URLs with `encodeURIComponent`, and opening them, is not modelled.
- Billing.ReplacePlaceholders: the replacement patterns `$$`, `$&`, `` $` `` and `$'` in a replacement value are copied literally, whereas JavaScript's `String.replace` would expand them. Numbered patterns such as `$1` stay literal in both, because the token patterns have no capture groups.
- Case folding covers the ASCII letters only; full Unicode `toLowerCase` is not modelled.
- Floating point. Money is exact (`real`), so binary floating-point error is not modelled; nor are display formatting with `toFixed` and `toLocaleString`.
- Dashboard.SortByStock: sorts by insertion and states sortedness and permutation. It does not state stability, so which of several products with equal stock come first is not pinned down.
- The `last7Days` calendar arithmetic is not modelled; `Dashboard.SalesData` takes the days as input.
- React scheduling is not modelled: state updates take effect immediately and in program order, and the `useMemo` memoisation is omitted.
- UI-only code is not part of this model: JSX rendering, the dropdown open/close flags, the add-customer modal and its form reset, the sidebar, routing, the login form, the reports stub and the settings form.
- Billing.FilteredProducts: stated as a subsequence of the matching products, at most ten long and complete when shorter. That it is exactly the first ten matches follows from its definition but is not a separate clause.
- Billing.AddPreservesWithinStock: holds only when the lines an add may merge into recorded at least the product's current stock. The source compares a line's quantity with the live `product.stock`, and enforces the snapshot bound only in `updateQuantity`.
- Db.Store.GetProducts: returns a value, so the model has no aliasing. In the source, with no stored catalogue, `getProducts` returns the module's own `SEED_PRODUCTS` array (services/db.ts:62). The dashboard's in-place `sort` (components/Dashboard.tsx:119) and `saveInvoice`'s writes to its elements (services/db.ts:102-108) therefore change that shared seed, and a later read with no stored catalogue sees the reordered or updated seed. `getCustomers` and `addCustomer` share `SEED_CUSTOMERS` the same way (services/db.ts:72, 81).
- Billing.InvoiceId: invoice ids are not unique (see `Billing.InvoiceIdsCollide`); nothing in the model relies on uniqueness.
