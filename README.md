# DonationCalculator, modelled in Dafny

DonationCalculator is a command-line program. It reads one calendar month of orders from a
Shopify store and works out what the store, Typeractive, donates for them:

- An order is a refund or replacement when its financial status is `"refunded"` or its subtotal
  string is exactly `"0.00"`. Such an order is only counted.
- Any other order donates a flat 1.00 when its subtotal is at most 100, and 1% of the subtotal
  when it is above 100.
- Line items named exactly `"Tip"` on those other orders are customer donations. Typeractive
  matches them one for one.

The program prints the order counts and the donation totals.

This project models the three parts of `rust/src/main.rs` that carry that logic:

- **`Window`** (`window.dfy`): the month after the requested month, which ends the order window.
  December rolls over to January of the next year.
- **`Fetch`** (`fetch.dfy`): the pagination loop of `fetch_orders`. HTTP is replaced by a
  *server*, a map from URI to the page (orders plus the optional `rel="next"` link) or to the
  reason the request fails.
  - `Walk` is the reference definition of the pages requested, in order.
  - `FetchOrders` is the loop, proved to produce exactly the trace `Walk` describes.
- **`Donations`** (`donations.dfy`): the accumulation loop of `main`.
  - `Summarize` is the reference definition, one order at a time.
  - `SummarizeOrders` (with `AddTips` for the inner loop over line items) is the loop with its
    five mutable accumulators, proved equal to `Summarize`.
  - Lemmas state what the totals mean: the three counters, the tip sum, the thresholds, when
    the pass aborts, and that runs of orders add up.
  - `MakeReport` derives the printed figures.
- **`Decimal`** (`decimal.dfy`): `str::parse::<f64>` on the decimal strings the API sends. It is
  read as an exact `real`: the finite syntax `[+-]? (D+ | D+ '.' D* | D* '.' D+) ([eE] [+-]? D+)?`,
  with `None` for a syntax error. `FormatAmount` writes an amount of cents with two decimals, as
  the API does. It is the partner of the parser: every amount so written parses back exactly.
- **`Orders`** (`orders.dfy`): the `Order` and `LineItem` records, and the `Option`/`Result`
  wrappers.

Modelling choices:

- Money is exact (`real`), not `f64`.
- Every `unwrap` or `?` that would end the run is an `Err` value. The first failure, in input
  order, is the one reported.
- A `next` link back to a page already read makes the source request the same pages forever,
  because the server is a fixed map. `Walk` reports this as `Diverges`, and `FetchOrders` may be
  called only where the walk does not diverge.

## Model

| member | source | states |
|---|---|---|
| Donations.SummarizeOrders | rust/src/main.rs:86-111 | The loop with five mutable accumulators returns exactly `Summarize(orders)`: the same totals, or the same first parse error. When it succeeds, flat + percent + refund counts equal the number of orders. |
| Donations.AddTips | rust/src/main.rs:103-107 | The inner loop adds the parsed prices of the items named "Tip", in order, to the running customer donations. A tip price that does not parse aborts with that price. |
| Donations.IsRefund | rust/src/main.rs:93 | The refund test is string equality: status "refunded" or subtotal "0.00". `TallyRefund` and `ZeroNotWrittenAsRefundMarkerIsFlat` state what it does and does not catch. |
| Donations.Tally | rust/src/main.rs:93-110 | One turn of the loop. A refund or replacement never fails. When it tallies, the three counters together grow by one, and `replacementsRefunds` grows by one exactly when the order is a refund or replacement. A refund adds no donation and no tips. `TallyOneCounter`, `TallyRefund`, `TallyFlat` and `TallyPercent` state each outcome in full. |
| Donations.TallyOneCounter | rust/src/main.rs:93-110 | A tallied order adds one to exactly one of `replacementsRefunds`, `ordersFlat` and `ordersPercent`, and leaves the other two as they were. |
| Donations.TipTotal | rust/src/main.rs:103-107 | The tip sum of one order. Its only failure is an invalid tip price; `TipErrorNamesItem` says which price, and `TipTotalIsSum` and `SumPricesOk` relate it to the filtered tip prices. |
| Donations.TipErrorNamesItem | rust/src/main.rs:103-107 | When the tip sum fails, its error carries the price of an item called "Tip" whose price does not parse. |
| Donations.Summarize | rust/src/main.rs:86-111 | The reference pass, order by order. When it succeeds, the three counters sum to the number of orders. |
| Donations.TallyRefund | rust/src/main.rs:93-110 | An order with status "refunded" or subtotal "0.00" increments only `replacementsRefunds`, by one. Its subtotal is never parsed and its tips never count. |
| Donations.TallyFlat | rust/src/main.rs:93-107 | Any other order with a subtotal of at most 100 adds 1.00 to the order donations, increments `ordersFlat`, and adds its tips. Nothing else changes. |
| Donations.TallyPercent | rust/src/main.rs:93-107 | Any other order with a subtotal above 100 adds 1% of the subtotal, increments `ordersPercent`, and adds its tips. Nothing else changes. |
| Donations.TallyInvalidSubtotal | rust/src/main.rs:94 | A counted order whose subtotal does not parse aborts the pass with that subtotal. |
| Donations.TallyInvalidTip | rust/src/main.rs:103-107 | A counted order with a tip price that does not parse aborts the pass with that price. |
| Donations.TallyTips | rust/src/main.rs:103-107 | A counted order that is tallied adds exactly its tip total to `customerDonations`. |
| Donations.ZeroNotWrittenAsRefundMarkerIsFlat | rust/src/main.rs:93-100 | The refund test compares strings, so a subtotal of "0" or "0.0" is not a refund: the order donates the flat 1.00 and counts as flat. |
| Donations.HundredIsFlat | rust/src/main.rs:94-100 | A subtotal of exactly "100.00" is flat: it adds 1.00, not 1%. |
| Donations.JustAboveHundredIsPercent | rust/src/main.rs:94-97 | A subtotal of "100.01" is a percent order and adds exactly 1.0001. |
| Donations.KindCounts | rust/src/main.rs:92-111 | Each counter equals the number of orders of its kind: refunds or replacements, counted orders of at most 100, and counted orders above 100. |
| Donations.CustomerDonationsAreTips | rust/src/main.rs:92-111 | `customerDonations` is the sum of the prices of all "Tip" items on orders that are not refunds or replacements. Other items and refunded orders add nothing. |
| Donations.TipTotalIsSum | rust/src/main.rs:103-107 | Summing an order's items as the inner loop does equals summing its filtered tip prices. |
| Donations.SumPricesOk | rust/src/main.rs:105 | A list of prices sums without error exactly when every price in it parses. |
| Donations.TallyOk | rust/src/main.rs:93-107 | Tallying an order succeeds exactly when it is processable: a refund or replacement, or an order whose subtotal and tip prices all parse. |
| Donations.SummarizeOk | rust/src/main.rs:92-111 | The pass completes, in both directions, exactly when every order is processable. |
| Donations.TallyAdds | rust/src/main.rs:92-111 | Tallying an order onto running totals adds that order's own contribution, taken from zero. |
| Donations.SummarizeAppend | rust/src/main.rs:92-111 | Summarising two runs of orders one after the other adds their totals. An error in the first run is the one reported. |
| Donations.SummarizeCommutes | rust/src/main.rs:92-111 | Swapping two runs of orders that all parse leaves the totals unchanged. This is the two-run case of `SummarizePermutation`, proved directly from `SummarizeAppend`. |
| Donations.SummarizePermutation | rust/src/main.rs:92-111 | When nothing fails to parse, any rearrangement of the orders gives the same totals. |
| Donations.SummarizeErrorPersists | rust/src/main.rs:92-111 | Once the pass has failed on a prefix of the orders, the whole pass fails with that same error. |
| Donations.Example | rust/src/main.rs:86-111 | The paid 50.00 order with a 5.00 tip, a refunded order and a paid 150.00 order give 2.50 order donations, one order of each kind, and 5.00 in tips. |
| Donations.MakeReport | rust/src/main.rs:113-132 | Total orders is the sum of the three counters. The match equals the customer donations. The Typeractive total is order donations plus the match. The grand total is customer donations plus the Typeractive total. |
| Donations.ReportedTotalOrders | rust/src/main.rs:113-116 | The reported total is the number of orders fetched. |
| Decimal.ParseFloat | rust/src/main.rs:94 | The parse of the subtotal, and of the tip prices at line 105. It accepts Rust's finite syntax, with its exact value: an optional sign, digits with an optional point and fraction (at least one digit in all), then an optional exponent. The empty string does not parse. The partner lemmas each cover one family of strings. `DigitsAccepted` and `SignedDigitsAccepted` cover digit runs with or without a sign. `ParseFormattedAmount` covers two-decimal amounts. `FractionAccepted` covers a bare fraction such as ".5", and `ExponentAccepted` covers digits with an exponent. On the error side, `ForeignCharRejected` rejects any character outside the number characters. `SecondPointRejected`, `ExponentWithoutDigitsRejected` and `PointOrSignAloneRejected` reject sample malformed strings made only of number characters. |
| Decimal.FractionAccepted | rust/src/main.rs:94 | A point followed by a non-empty run of digits parses to their value divided by ten to the number of digits. |
| Decimal.ExponentAccepted | rust/src/main.rs:94 | The digits of `m`, then "e" or "e-", then the digits of `k`, parse to `m` times ten to the power `k` or `-k`. |
| Decimal.SecondPointRejected | rust/src/main.rs:94 | "1.2.3" does not parse. |
| Decimal.ExponentWithoutDigitsRejected | rust/src/main.rs:94 | "1e", "1e+" and "e5" do not parse. |
| Decimal.PointOrSignAloneRejected | rust/src/main.rs:94 | ".", "-." and "-" do not parse. |
| Decimal.DigitsAccepted | rust/src/main.rs:94 | A non-empty run of digits parses to its decimal value. |
| Decimal.SignedDigitsAccepted | rust/src/main.rs:94 | A '+' or '-' followed by a non-empty run of digits parses to the signed value. |
| Decimal.ForeignCharRejected | rust/src/main.rs:94 | A string holding any character other than a digit, a sign, '.', 'e' or 'E' does not parse. |
| Decimal.ParseFormattedAmount | rust/src/main.rs:94 | Every amount written with two decimals, negative ones included, parses back to exactly that many hundredths. The same parse reads the tip prices at line 105. |
| Decimal.ScanLeadingDigits | rust/src/main.rs:94 | A run of digits at the start of a number, after an optional sign, is read as its decimal value. |
| Decimal.NatDigitsValue | rust/src/main.rs:94 | The digits written for a natural number read back as that number. |
| Window.WindowEnd | rust/src/main.rs:70-71 | For months 1-11 the window ends at the next month of the same year. December ends it at January of the next year. The end month is in 1..12, one month index after the start. `None` exactly when `month + 1` or `year + 1` overflows. |
| Window.WindowEndIsNextMonth | rust/src/main.rs:70-71 | The end month is the month whose index follows the start's. |
| Window.FromMonthIndex | rust/src/main.rs:70-71 | Every month index stands for a month in 1..12 of some year, and `MonthIndex` of that pair gives the index back. |
| Window.MonthIndexRoundTrip | rust/src/main.rs:70-71 | `FromMonthIndex` undoes `MonthIndex` on months 1..12. With the contract of `FromMonthIndex`, the two correspond one to one. |
| Window.MonthWindow | rust/src/main.rs:70-82 | A window exists exactly when the month is in 1..12 and both ends fall in chrono's years, -262144 to 262143: the year is in that range, and it is not December of 262143. The window starts at the given month and ends at the following one, which is also a calendar month. |
| Fetch.Walk | rust/src/main.rs:45-62 | The first request is the given URI. Each page but the last is read and links to the next URI requested. A completed walk ends on a page without `next`, and its orders are those of the pages requested, in order. A failed walk ends on the failing request. A walk that ends requests each URI once. |
| Fetch.WalkOfChain | rust/src/main.rs:52-62 | A chain of distinct pages not yet read, each linking to the next and the last linking nowhere, is walked to its end. Every page is requested once, in order, and the walk yields all their orders. So `FetchOrders` applies to every such chain. |
| Fetch.DivergesOnlyOnRevisit | rust/src/main.rs:52-62 | A walk diverges only when it comes back to a page. The last URI it requests was read before the walk began, or was requested earlier in the walk. |
| Fetch.FetchOrders | rust/src/main.rs:39-65 | The loop requests exactly the URIs of `Walk` and returns its outcome. On success the result is those pages' orders concatenated in order, and its length is the sum of the page sizes. |
| Fetch.PagesOrdersLength | rust/src/main.rs:52-62 | The concatenated orders are as many as the pages' orders put together. |
| Fetch.PendingStep | rust/src/main.rs:54-61 | One turn of the loop: a failed request ends the walk with that error. A page read joins its orders and follows its `next` link. |

## Left out

- HTTP and `ureq`: requests, status codes and the access token become the server map. A
  transport failure, a missing or malformed `link` header and a malformed body are error
  values of that map.
- Parsing of the `link` header (`parse_link_header`) and of the JSON body (`serde`): each
  page arrives already decoded.
- Building the first URL from the query parameters (rust/src/main.rs:40-43): `FetchOrders`
  takes the first URI as it is.
- Command-line parsing (`clap`) and the `SHOPIFY_TOKEN` lookup; the missing-token panic is not
  modelled.
- Time zones and RFC 3339 timestamps (`chrono`, `chrono_tz`): only the month and year of the
  window's two ends are modelled. Two failures of the date construction are `MonthWindow`'s
  `None`: a month outside 1..12, and a year outside chrono's calendar at either end.
- Window.MonthWindow: it takes chrono's calendar to span the years `i32::MIN >> 13` to
  `i32::MAX >> 13`, as in chrono 0.4; the dependency's version is not part of this model.
  Local times that the time zone rules skip or repeat are not modelled.
- Printing, and the rounding of `{:.2}`: `MakeReport` gives the exact figures.
- `f64` arithmetic: amounts are exact reals, so rounding in sums and in `subtotal * 0.01` is
  not modelled.
- Decimal.ParseFloat: does not accept `inf`, `infinity` or `nan`, which Rust's parser does. It
  does not model overflow to infinity or rounding to the nearest `f64`.
- Fetch.FetchOrders: requires a walk that does not diverge. The source's endless loop on a
  cycle of `next` links is described by `Walk` only. `WalkOfChain` shows that every chain of
  distinct links ending in a page without `next` meets this requirement. `DivergesOnlyOnRevisit`
  shows that only a link back to a page already read fails it.
- Window.WindowEnd: overflow of `month + 1` or `year + 1` is `None`, as with overflow checks on.
  The wrap-around of a build without them is not modelled.
- The `i32` counters of the pass are unbounded naturals; their overflow past 2^31 - 1 orders
  is not modelled.
- The inner loop over line items is a method of its own, `AddTips`, called from
  `SummarizeOrders`.
