# Visual Art print shop — a verified model of its core

Visual Art is a print shop's software suite in three parts:

- an HTTP API that prices made-to-measure print products (banners, stickers, boards) and records sales and quotes;
- a back-office ERP front end for customers, products and quotes;
- a small shop front end whose catalogue, customers, orders and campaigns live in the browser's local storage.

This project models the logic at the heart of each part in Dafny and proves what that logic promises.

**API.**
- The price calculator. It checks dimensions against a product's bounds and step, computes the base price of each pricing model (UNIT, AREA_M2, LINEAR_M; QUOTE is refused), applies the option modifiers left to right, floors at the minimum price and multiplies by the quantity. Amounts are exact rationals and `Math.round` is `floor(x + 1/2)`.
- The sale, quote and quote-to-sale workflows. They sit on an in-memory database (`Checkout.Database`) whose methods change the tables only on success, as each transaction does. The per-item option selection and group-count check is one function, `OptionSelection.PrepareItem`, used by both the sale and the quote. `visual-art-api/src/modules/quotes/quotes.services.js` is a line-for-line copy of the quote code in `quotes.service.js`, so `Checkout.Database.CreateQuote` models both.
- The order-code sequencer (`KEY-YEAR-000001`, one counter per key and year).
- The option-group rule validator and the product create/update/add-group guards.
- Pagination.
- Customer registration: the schemas, the repository's address table with its "at most one default address per user and type" invariant, and the service.
- The ERP's customer service.

**ERP front end.**
- Money parsing.
- `slugify` and URL absolutisation.
- The customer form's CEP/CPF/CNPJ masks, validators and submit payload.
- The customer-response mapper.
- The product editor's pricing-field cleaner.

**Shop.**
- The four local-storage stores. Each is a class holding the stored list as a `seq`, with the prepend, in-place replace, filter and append the source performs.
- The settings merge.
- The category list builder.
- The two menu-key selectors.
- The cart counter.

JavaScript objects are modelled as `map<string, Value>` (`Json.Value`), and object spread is map union with the right side winning. Ids, clocks and the current year are parameters.

## Model

| member | source | states |
|---|---|---|
| PriceCalculator.ToMeters | visual-art-api/src/modules/orders/price-calculator.js:15-19 | a centimetre value is the metre value times 100, a millimetre value the metre value times 1000, exactly |
| PriceCalculator.JsRound | visual-art-api/src/modules/orders/price-calculator.js:69 | `Math.round(x)` is the integer r with r − ½ ≤ x < r + ½, so ties go toward +∞ |
| PriceCalculator.JsRoundUnique | visual-art-api/src/modules/orders/price-calculator.js:69 | any integer within [x − ½, x + ½) is the rounding of x |
| PricingProperties.JsRoundTies | visual-art-api/src/modules/orders/price-calculator.js:100 | 2.5 rounds to 3, −2.5 to −2 and −0.5 to 0, which matters for negative per-m² options |
| PriceCalculator.DimensionViolation | visual-art-api/src/modules/orders/price-calculator.js:34-47 | there is no violation exactly when the dimensions are acceptable: width (and height for AREA_M2) present and positive, both multiples of a set step, and within every set bound; a 0 or null bound or step counts as unset |
| PriceCalculator.BillableArea | visual-art-api/src/modules/orders/price-calculator.js:67 | the billable area is at least the raw area, at least minAreaM2 when that is set, and equal to one of the two |
| PriceCalculator.BasePrice | visual-art-api/src/modules/orders/price-calculator.js:53-77 | fails, with BadRequest, exactly when the active model's base price column is null; otherwise UNIT gives baseUnitPriceCents, AREA_M2 gives round(baseM2PriceCents × billable area) and LINEAR_M gives round(baseLinearMPriceCents × width in metres) |
| PriceCalculator.ApplyModifiers | visual-art-api/src/modules/orders/price-calculator.js:80-108 | the modifier fold fails exactly when the product is not priced by area and some selected option is an active PER_M2_CENTS one, and then only with the PER_M2 BadRequest |
| PriceCalculator.ApplyModifier | visual-art-api/src/modules/orders/price-calculator.js:83-107 | an inactive option and an unknown modifier type leave the subtotal as it is; FIXED_CENTS adds its value; PERCENT adds round(subtotal × value / 100); PER_M2_CENTS adds round(value × billable area) on an area product and fails, with the PER_M2 BadRequest, exactly when the product is not priced by area; a non-negative PERCENT never lowers a non-negative subtotal |
| PriceCalculator.ModifierArea | visual-art-api/src/modules/orders/price-calculator.js:95-98 | the area handed to PER_M2 options is present exactly for AREA_M2 products |
| PriceCalculator.ApplyModifiersLoop | visual-art-api/src/modules/orders/price-calculator.js:80-108 | the loop over the selected options computes the left fold of ApplyModifiers |
| PriceCalculator.Subtotal | visual-art-api/src/modules/orders/price-calculator.js:21-108 | an inactive product fails with BadRequest first; an active QUOTE product fails with Conflict; a dimension violation fails with BadRequest; Conflict is the only non-400 outcome; it succeeds exactly when the product is active, not QUOTE, within its dimension rules, has its base column set and (unless priced by area) has no active PER_M2 option selected, and the value is then the base price folded through the selected options, with the billable area only for AREA_M2 |
| PriceCalculator.CalculateItemPrice | visual-art-api/src/modules/orders/price-calculator.js:21-125 | succeeds under exactly the same conditions as Subtotal; the unit price is then the modifier fold over the base price, raised to minPriceCents when that is non-null (0 included); line total = unit price × quantity; `areaM2` is present exactly for AREA_M2 and is then the raw, unfloored area |
| PricingProperties.ActiveOnly | visual-art-api/src/modules/orders/price-calculator.js:83 | an option is kept exactly when it is in the list and active, in list order (the result equals the list filtered by `active`) |
| PricingProperties.InactiveOptionsIgnored | visual-art-api/src/modules/orders/price-calculator.js:83 | dropping every inactive option leaves the modifier fold's result unchanged |
| PricingProperties.PerM2FailsIff | visual-art-api/src/modules/orders/price-calculator.js:90-94 | on a product that is not AREA_M2 the fold fails if and only if an active PER_M2_CENTS option is selected |
| PricingProperties.AreaModifiersNeverFail | visual-art-api/src/modules/orders/price-calculator.js:90-101 | on an AREA_M2 product the modifier fold always succeeds |
| PricingProperties.FixedOnlyIsSum | visual-art-api/src/modules/orders/price-calculator.js:85-88 | with only active FIXED_CENTS options the subtotal grows by the sum of their values |
| PricingProperties.ModifierOrderMatters | visual-art-api/src/modules/orders/price-calculator.js:104-106 | PERCENT applies to the running subtotal: +500 then +10 % gives 1650 from 1000, the reverse order gives 1600 |
| PricingProperties.UnitIgnoresDimensions | visual-art-api/src/modules/orders/price-calculator.js:53-56 | a UNIT product gets the same outcome whatever width and height are sent |
| PricingProperties.UnitPriceWithOptions | visual-art-api/src/modules/orders/price-calculator.js:21-125 | an active UNIT product with its base price set and no active PER_M2 option always prices: the unit price is the base price folded through the options, raised to minPriceCents when set, and the line total is that times the quantity, with no area |
| PricingProperties.UnitWithOptionsExample | visual-art-api/src/modules/orders/price-calculator.js:53-116 | a UNIT product of 1000 with a minimum of 1200, a +500 option and a +10 % option, bought twice, prices at 1650 per unit and 3300 in total |
| PricingProperties.LinearIgnoresHeight | visual-art-api/src/modules/orders/price-calculator.js:72-77 | two accepted LINEAR_M requests with the same width get the same unit price, whatever their heights |
| PricingProperties.QuantityOnlyMultiplies | visual-art-api/src/modules/orders/price-calculator.js:115-116 | the quantity changes neither whether pricing succeeds nor the unit price |
| PricingProperties.SubtotalIgnoresMinPrice | visual-art-api/src/modules/orders/price-calculator.js:21-108 | the price before the floor does not depend on minPriceCents |
| PricingProperties.DimensionsIgnoreMinPrice | visual-art-api/src/modules/orders/price-calculator.js:34-47 | the dimension check does not read minPriceCents |
| PricingProperties.BaseIgnoresMinPrice | visual-art-api/src/modules/orders/price-calculator.js:53-77 | the base price does not read minPriceCents |
| PricingProperties.AcceptableIgnoresMinPrice | visual-art-api/src/modules/orders/price-calculator.js:34-47 | dimension acceptance does not read minPriceCents |
| PricingProperties.AreaIgnoresMinPrice | visual-art-api/src/modules/orders/price-calculator.js:64-67 | the billable area does not read minPriceCents |
| PricingProperties.MinPriceIsFloor | visual-art-api/src/modules/orders/price-calculator.js:110-113 | setting a minimum price never changes success, and the unit price becomes max(minimum, unit price without it) |
| PricingProperties.AreaSubtotalNoOptions | visual-art-api/src/modules/orders/price-calculator.js:58-70 | with no options an AREA_M2 subtotal is round(base per m² × billable area) |
| PricingProperties.AreaPriceFormula | visual-art-api/src/modules/orders/price-calculator.js:58-124 | the AREA_M2 result with no options: round(base per m² × billable area) floored at the minimum price, times the quantity, reporting the raw area |
| PricingProperties.LinearPriceFormula | visual-art-api/src/modules/orders/price-calculator.js:72-124 | the LINEAR_M result with no options and no minimum: round(base per metre × width in metres), times the quantity, with no area |
| SeedExamples.BannerOneSquareMetre | visual-art-api/prisma/seed.js:43-214 | a 100 × 100 cm seeded banner with 440 g vinyl and pole costs 6500 + 0 + 1500 |
| SeedExamples.SmallBannerHitsMinimums | visual-art-api/prisma/seed.js:43-214 | a 20 × 20 cm banner is billed as 0.25 m², the −800/m² option subtracts 200, and the result is raised to 3500 while the raw 0.04 m² is reported |
| SeedExamples.TenSmallStickers | visual-art-api/prisma/seed.js:216-339 | ten 10 × 10 cm stickers are each billed on 0.10 m² and raised to the 2500 minimum |
| SeedExamples.NarrowBannerRejected | visual-art-api/prisma/seed.js:43-83 | a 10 cm wide banner is below its minimum width and fails with BadRequest |
| SeedExamples.StickerWithoutFinishing | visual-art-api/prisma/seed.js:216-339 | an unknown option id is dropped and the missing required finishing group is reported as BadRequest |
| OptionSelection.AllOptions | visual-art-api/src/modules/orders/orders.service.js:37 | the flattened list holds exactly the options of the groups |
| OptionSelection.LookupOption | visual-art-api/src/modules/orders/orders.service.js:38-39 | the lookup finds nothing exactly when no option has the id, and otherwise returns an option with that id |
| OptionSelection.ResolveOptions | visual-art-api/src/modules/orders/orders.service.js:39 | the resolved options are options of the product whose ids were requested, and there are at most as many as ids |
| OptionSelection.GroupCount | visual-art-api/src/modules/orders/orders.service.js:43 | a group's count never exceeds the number of selected options |
| OptionSelection.MinRequired | visual-art-api/src/modules/orders/orders.service.js:44 | a required group needs at least max(1, minSelect) selections; an optional one needs minSelect |
| OptionSelection.CheckGroups | visual-art-api/src/modules/orders/orders.service.js:42-52 | no error exactly when every group's count lies between its lower bound and maxSelect; any error is a BadRequest about a group that fails |
| OptionSelection.PrepareItem | visual-art-api/src/modules/orders/orders.service.js:32-52 | an unknown product is NotFound and an inactive one BadRequest, before any option check; success returns the product, its resolved options and a passed group check |
| OptionSelection.ResolveAppend | visual-art-api/src/modules/orders/orders.service.js:39 | resolution works id by id: resolving a concatenation concatenates the results |
| OptionSelection.UnknownIdsDropped | visual-art-api/src/modules/orders/orders.service.js:39 | ids the product does not know are dropped silently |
| OptionSelection.KnownIdsResolvePointwise | visual-art-api/src/modules/orders/orders.service.js:39 | known ids resolve one for one, in order, each to its option |
| OptionSelection.GroupCountAppend | visual-art-api/src/modules/orders/orders.service.js:43 | group counts add up over concatenation |
| OptionSelection.RepeatedIdCountsTwice | visual-art-api/src/modules/orders/orders.service.js:39-46 | a repeated id yields its option twice and counts twice toward its group |
| OptionSelection.InactiveOptionSatisfiesGroup | visual-art-api/src/modules/orders/orders.service.js:42-52 | an inactive option still counts toward a required group |
| Orders.OrderTotal | visual-art-api/src/modules/orders/orders.service.js:92 | the total is the non-negative one of 0 and subtotal − discount + shipping + tax, and at least both |
| Orders.SaleStep | visual-art-api/src/modules/orders/orders.service.js:31-86 | a missing product is NotFound and an inactive one or an unmet option group is BadRequest, as PrepareItem says; then a stock row holding less than the quantity is BadRequest(InsufficientStock), before any pricing; then a pricing error passes through; it succeeds exactly when none of these happens. A success keeps the stock rows, lowers only the item's product's row by the quantity, and stores a row that records the item as sent, with the product's name, calculateItemPrice's unitPriceCents as its price and lineTotalCents as the line total |
| Orders.QuoteStep | visual-art-api/src/modules/quotes/quotes.service.js:34-75 | the PrepareItem errors, then any pricing error, pass through, and it succeeds exactly when neither happens; a success stores a row recording the item, with the product's name, calculateItemPrice's unitPriceCents as its price and lineTotalCents as the line total |
| Orders.FoldRecordsItems | visual-art-api/src/modules/orders/orders.service.js:31-86 | for any per-row property every turn's row has, a successful sale loop keeps the earlier rows and adds one row per item, in order, each having that property for its item, and adds their unit price × quantity to the subtotal |
| Orders.QuoteFoldRecordsItems | visual-art-api/src/modules/quotes/quotes.service.js:34-75 | the same for the quote loop |
| Orders.FoldPrefixStep | visual-art-api/src/modules/orders/orders.service.js:31-86 | a prefix whose first turn succeeds runs on from that turn's state over the rest of the prefix |
| Orders.FoldFailsAtFirst | visual-art-api/src/modules/orders/orders.service.js:31-86 | a failed sale loop stops at its first failing item: the items before it all succeed and that item's turn, from the stock they leave, gives the error |
| Orders.FoldSucceedsAtEach | visual-art-api/src/modules/orders/orders.service.js:31-86 | in a successful sale loop every item's turn succeeded from the stock the items before it left |
| Orders.QuoteFoldChecksEachItem | visual-art-api/src/modules/quotes/quotes.service.js:34-75 | a quote loop succeeds exactly when every item's turn does, and a failure carries the first failing item's error |
| Orders.PrefixStock | visual-art-api/src/modules/orders/orders.service.js:55-65 | after a successful prefix of the loop the running stock is the loaded stock less the prefix's quantities per product |
| Orders.FoldChecksEachItem | visual-art-api/src/modules/orders/orders.service.js:31-86 | a sale loop succeeds exactly when each item's turn passes from the stock the items before it leave, and a failure carries the first failing item's error |
| Orders.FoldStockAccounting | visual-art-api/src/modules/orders/orders.service.js:55-65 | no stock row is created or removed and each row drops by exactly the total quantity requested for its product |
| Orders.FoldKeepsStockNonNegative | visual-art-api/src/modules/orders/orders.service.js:55-65 | when each turn checks the running stock, no non-negative row ends below zero |
| Orders.FoldWithoutStock | visual-art-api/src/modules/quotes/quotes.service.js:34-75 | with no stock rows, a sale loop and a quote loop with matching turns give the same outcome, error, subtotal and rows |
| Orders.SaleTurnOf | visual-art-api/src/modules/orders/orders.service.js:31-86 | every row of the sale turn is the snapshot of its item, named and priced by calculateItemPrice from its product, with line total = unit price × quantity; the turn accounts for stock and checks the running stock |
| Orders.QuoteTurnOf | visual-art-api/src/modules/quotes/quotes.service.js:34-75 | every row of the quote turn is the snapshot of its item, named and priced by calculateItemPrice from its product, with line total = unit price × quantity |
| Orders.AsWrittenTurnOf | visual-art-api/src/modules/orders/orders.service.js:24-65 | the turn as written prices and snapshots items the same way and accounts for stock, but checks the figures loaded before the loop |
| Orders.SaleRecordsItems | visual-art-api/src/modules/orders/orders.service.js:75-85 | a successful sale has one row per item, in order, each recording the item as sent with the product's name and calculateItemPrice's unit price, and a subtotal equal to the sum of calculateItemPrice's line totals for the items (and to Σ priceCents × quantity) |
| Orders.SnapshotLineSum | visual-art-api/src/modules/orders/orders.service.js:75-80 | rows that are the snapshots of their items sum, as Σ priceCents × quantity, to the line totals calculateItemPrice gives those items |
| Orders.Fold | visual-art-api/src/modules/orders/orders.service.js:28-76 | a successful item loop keeps the rows it started with and adds one row per item; a failed loop fails with an error that some turn gives one of its items (FoldFailsAtFirst pins down which one) |
| Orders.SaleFrom | visual-art-api/src/modules/orders/orders.service.js:28-76 | a sale succeeds exactly when each item's step passes, checked against and taken from the stock the items before it leave; a failure carries the error of the first item whose step fails, all items before it passing; a success has one row per item |
| Orders.PlainSaleExample | visual-art-api/src/modules/orders/orders.service.js:28-76 | two mugs of a unit product priced at 1000 against a stock of 5: the sale succeeds with one row carrying the product name and unit price 1000, a subtotal of 2000 and 3 left in stock |
| Orders.QuoteRecordsItems | visual-art-api/src/modules/quotes/quotes.service.js:64-74 | a successful quote has one row per item, in order, each recording the item with the product's name and calculateItemPrice's unit price, and a subtotal equal to the sum of calculateItemPrice's line totals for the items |
| Orders.QuoteFold | visual-art-api/src/modules/quotes/quotes.service.js:31-65 | a successful quote loop keeps the rows it started with and adds one row per item; a failed loop fails with the error that one of its items gave (QuoteFoldChecksEachItem pins down which one) |
| Orders.QuoteFrom | visual-art-api/src/modules/quotes/quotes.service.js:31-65 | a quote succeeds exactly when every item's step does; a failure carries the error of the first failing item, all items before it passing; a success has one row per item |
| Orders.SaleStockAccounting | visual-art-api/src/modules/orders/orders.service.js:55-65 | after a successful sale every stock row is still there, has dropped by exactly the total quantity of its product, and a non-negative row has not gone below zero |
| Orders.SaleStepWithoutStock | visual-art-api/src/modules/quotes/quotes.service.js:34-75 | with no stock rows a sale turn is a quote turn |
| Orders.QuoteIsSaleWithoutStock | visual-art-api/src/modules/quotes/quotes.service.js:34-75 | with no stock rows a sale and a quote over the same items fail alike or succeed with the same subtotal and rows |
| Orders.StockCanGoNegativeAsWritten | visual-art-api/src/modules/orders/orders.service.js:24-65 | two lines of 3 against a stock of 5: as written the sale succeeds and leaves −1; the corrected loop rejects the second line |
| Orders.SaleFromAsWritten | visual-art-api/src/modules/orders/orders.service.js:24-76 | as written, a successful sale still has one row per item and lowers each stock row by the total quantity requested for its product; only the stock check differs |
| Checkout.RunSale | visual-art-api/src/modules/orders/orders.service.js:31-86 | the item loop of a sale computes the sale fold |
| Checkout.RunQuote | visual-art-api/src/modules/quotes/quotes.service.js:34-75 | the item loop of a quote computes the quote fold |
| Checkout.FindQuote | visual-art-api/src/modules/quotes/quotes.service.js:125-128 | finds nothing exactly when no order has that id and type QUOTE; otherwise returns such an order |
| Checkout.ConversionCheck | visual-art-api/src/modules/quotes/quotes.service.js:125-138 | a missing quote is NotFound; an already converted quote is a 409 Conflict; success exactly when the quote exists and no order links to it, returning the quote, whatever its status |
| Checkout.ConversionCheckAsWritten | visual-art-api/src/modules/quotes/quotes.service.js:131-138 | the outcome is a 500 exactly when the quote exists and was already converted |
| Checkout.ConvertedSale | visual-art-api/src/modules/quotes/quotes.service.js:140-175 | the new order is a SALE, UNPAID, with status `saleStatus ?? PENDING`, the quote's user and total, its items one for one, linked to the quote |
| Checkout.ConvertingTwiceFails | visual-art-api/src/modules/quotes/quotes.service.js:131-138 | once the converted sale is stored, converting the same quote again fails with Conflict |
| Checkout.SecondConversionIs500AsWritten | visual-art-api/src/modules/quotes/quotes.service.js:136-138 | on a converted quote the code as written answers 500 where the intended check answers 409 |
| Checkout.CanceledQuoteConverts | visual-art-api/src/modules/quotes/quotes.service.js:125-129 | a CANCELED quote passes the conversion guards |
| Checkout.Database.constructor | visual-art-api/src/modules/orders/orders.service.js:21-24 | the tables start as given, with no orders |
| Checkout.Database.CreateSale | visual-art-api/src/modules/orders/orders.service.js:21-114 | a failed item leaves every table unchanged and returns the sale loop's error; a success decrements stock line by line, each line checked against the stock left by the lines before it (the corrected check; see Findings), allocates the next PED code and stores a SALE / PENDING / UNPAID order with zero discount, shipping and tax and total max(0, subtotal); its subtotal is the sum of calculateItemPrice's line totals and each stored item is its request's snapshot, named and priced from the product |
| Checkout.Database.CreateQuote | visual-art-api/src/modules/quotes/quotes.service.js:19-105 | a missing customer is NotFound before any product; stock is never touched; a failed item returns the quote loop's error; a success allocates an ORC code and stores a QUOTE / PENDING / UNPAID order with total max(0, subtotal − discount + shipping + tax), absent amounts as 0, its subtotal the sum of calculateItemPrice's line totals and each stored item its request's snapshot, named and priced from the product. The same code is in visual-art-api/src/modules/quotes/quotes.services.js:19-105 |
| Checkout.Database.ConvertToSale | visual-art-api/src/modules/quotes/quotes.service.js:122-183 | after the guards a PED code is allocated and the ConvertedSale is appended; products, users, stock and the quote itself are unchanged; a failed guard changes nothing |
| OrderCode.Pad6 | visual-art-api/src/service/order-code.service.js:3-5 | the result is the decimal digits of n left-padded with '0' to at least six characters, never truncated |
| OrderCode.Pad6Value | visual-art-api/src/service/order-code.service.js:3-5 | reading the padded digits back gives n |
| OrderCode.Pad6Injective | visual-art-api/src/service/order-code.service.js:3-5 | different numbers pad to different strings |
| OrderCode.FormatCode | visual-art-api/src/service/order-code.service.js:21 | the code is the key, '-', the year, '-', and the padded value |
| OrderCode.CodesNeverRepeat | visual-art-api/src/service/order-code.service.js:15-21 | within one series different counter values give different codes |
| OrderCode.NextValue | visual-art-api/src/service/order-code.service.js:15-19 | a new series starts at 1; an existing one goes up by exactly 1 |
| OrderCode.SequenceTable.constructor | visual-art-api/src/service/order-code.service.js:15-19 | the counter table starts empty |
| OrderCode.SequenceTable.NextOrderCode | visual-art-api/src/service/order-code.service.js:11-22 | the series' counter becomes NextValue, no other counter changes, and the returned code formats the new value |
| OrderCode.SuccessiveCodesDiffer | visual-art-api/src/service/order-code.service.js:15-21 | two allocations in a row from one series give consecutive values and different codes |
| OrderCode.OtherSeriesUntouched | visual-art-api/src/service/order-code.service.js:15-19 | allocating from one series never changes another series' counter |
| OrderCode.FirstCodeOfSeries | visual-art-api/src/service/order-code.service.js:15-21 | the first PED code of 2025 is "PED-2025-000001" |
| Pagination.GetPagination | visual-art-api/src/utils/pagination.js:1-8 | page ≥ 1 (default 1), 1 ≤ pageSize ≤ 100 (default 12), in-range values kept, skip = (page − 1) × pageSize ≥ 0, take = pageSize |
| Pagination.CeilDiv | visual-art-api/src/utils/pagination.js:11 | the ceiling of total / pageSize: enough pages for every row, and one fewer would not be |
| Pagination.BuildMeta | visual-art-api/src/utils/pagination.js:10-13 | totalPages ≥ 1, totalPages × pageSize ≥ total, exactly 1 for an empty total, and no page wasted otherwise |
| Pagination.LastPageStartsInsideData | visual-art-api/src/utils/pagination.js:1-13 | the window of the last page starts inside the data and reaches its end |
| CatalogAdmin.ValidateGroupRules | visual-art-api/src/modules/products/products.service.js:19-27 | no error exactly when, with defaults min 0, max 1 and not required, 0 ≤ min ≤ max and required implies min ≥ 1; a negative bound is the first Conflict; every error is a Conflict |
| CatalogAdmin.AcceptedGroupIsSatisfiable | visual-art-api/src/modules/products/products.service.js:19-27 | an accepted group can be satisfied at checkout: an empty selection passes exactly when it is optional with min 0, and its lower bound's worth of options always passes |
| CatalogAdmin.CountOfCopies | visual-art-api/src/modules/orders/orders.service.js:43 | k copies of one option of a group count k |
| CatalogAdmin.ProductCatalog.constructor | visual-art-api/src/modules/products/products.service.js:29 | the catalog starts empty |
| CatalogAdmin.ProductCatalog.Create | visual-art-api/src/modules/products/products.service.js:46-55 | a slug already in use is a Conflict and nothing is written; otherwise the product is stored under the slug with a stock row of 0, keeping slugs unique |
| CatalogAdmin.ProductCatalog.Update | visual-art-api/src/modules/products/products.service.js:57-71 | an unknown id is NotFound; a known id succeeds if and only if no non-empty new slug is owned by a different product, and otherwise fails with the slug Conflict; a success writes the patch spread over the current row |
| CatalogAdmin.ProductCatalog.AddOptionGroup | visual-art-api/src/modules/products/products.service.js:80-87 | an unknown product is NotFound before the rules; a rule breach is a Conflict; success appends the group and changes nothing else |
| Strings.OnlyDigits | visual-art-api/src/modules/customers/customers.schemas.js:3 | `replace(/\D/g, '')` keeps only decimal digits and never lengthens the string |
| Strings.OnlyDigitsAppend | visual-art-api/src/modules/customers/customers.schemas.js:3 | stripping distributes over concatenation |
| Strings.OnlyDigitsOfDigits | visual-art-api/src/modules/customers/customers.schemas.js:3 | a string of digits is left as it is |
| Strings.OnlyDigitsIdempotent | visual-art-api/src/modules/customers/customers.schemas.js:3 | stripping twice is stripping once |
| Strings.OnlyDigitsCount | visual-art-api/src/modules/customers/customers.schemas.js:3 | every digit of the input is kept, as many times as it occurs, and no other character is |
| CustomerSchemas.OnlyDigitsValue | visual-art-api/src/modules/customers/customers.schemas.js:3 | a string loses its non-digits; any other value passes unchanged |
| CustomerSchemas.OnlyDigitsValueIdempotent | visual-art-api/src/modules/customers/customers.schemas.js:3 | the transform is a projection |
| CustomerSchemas.AddressIssues | visual-art-api/src/modules/customers/customers.schemas.js:9-24 | no issue exactly when every refinement holds; the zip issue is reported exactly when the stripped zip is not 8 characters long, the state issue exactly when the state is not 2 characters |
| CustomerSchemas.ParseAddress | visual-art-api/src/modules/customers/customers.schemas.js:9-24 | accepted exactly when every refinement holds; an accepted address keeps every field as given except the zip, which becomes its digits (8 of them), has a 2-letter state, type defaulting to SHIPPING and isDefault to false; a rejection lists at least one issue |
| CustomerSchemas.ZipPunctuationIgnored | visual-art-api/src/modules/customers/customers.schemas.js:16 | two zip codes with the same digits parse alike |
| CustomerSchemas.BillingOrDefault | visual-art-api/src/modules/customers/customers.schemas.js:92 | an absent billing address means "same as shipping" |
| CustomerSchemas.NormalizeProfile | visual-art-api/src/modules/customers/customers.schemas.js:31-56 | undeclared keys are dropped; gender, whatsapp and marketingOptIn take their defaults (NOT_INFORMED, true, false) when absent; cpf, cnpj and phone2 lose their non-digits; every other declared field is kept as sent |
| CustomerSchemas.PersonIssues | visual-art-api/src/modules/customers/customers.schemas.js:62-71 | for PERSON: fullName required, cpf required, a present cpf must have 11 characters, cnpj must be absent; each issue is reported exactly when its rule fails, all at once |
| CustomerSchemas.BusinessIssues | visual-art-api/src/modules/customers/customers.schemas.js:73-82 | for BUSINESS: companyName required, cnpj required, a present cnpj must have 14 characters, cpf must be absent; each issue is reported exactly when its rule fails |
| CustomerSchemas.ProfileIssues | visual-art-api/src/modules/customers/customers.schemas.js:61-83 | no issue exactly when the PF/PJ rules hold; PERSON and BUSINESS get their own rules |
| CustomerSchemas.ParseProfile | visual-art-api/src/modules/customers/customers.schemas.js:31-83 | a profile with an unknown type, a non-string text field, an unknown gender or a non-boolean flag is rejected; an accepted one is the normalised profile and satisfies the PF/PJ rules; a rejection lists at least one issue |
| CustomerSchemas.AcceptedProfileShape | visual-art-api/src/modules/customers/customers.schemas.js:31-56 | an accepted profile holds declared keys only, still passes the type checks, and always has a gender and both flags: the ones sent, else the defaults |
| CustomerSchemas.NormalizedDefault | visual-art-api/src/modules/customers/customers.schemas.js:37-53 | a defaulted key of the normalised profile holds the value sent, else its default |
| CustomerSchemas.NormalizedDocument | visual-art-api/src/modules/customers/customers.schemas.js:46-47 | a CPF or CNPJ that passed the type check is normalised to a string of digits |
| CustomerSchemas.AcceptedProfileDocuments | visual-art-api/src/modules/customers/customers.schemas.js:61-83 | an accepted PERSON has an 11-digit CPF and no CNPJ; an accepted BUSINESS has a 14-digit CNPJ and no CPF |
| CustomerSchemas.EveryPersonIssueReported | visual-art-api/src/modules/customers/customers.schemas.js:62-71 | a PERSON with neither name nor CPF but with a CNPJ gets three issues, in rule order |
| CustomersRepository.RowOf | visual-art-api/src/modules/customers/customers.repository.js:25 | an address row copies the input and belongs to the new user |
| CustomersRepository.NewRows | visual-art-api/src/modules/customers/customers.repository.js:24-26 | one row per address under its id, each a copy of its input owned by the new user |
| CustomersRepository.ClearDefaults | visual-art-api/src/modules/customers/customers.repository.js:83-86 | every address of that user and type loses its default flag; nothing else changes |
| CustomersRepository.ClearDefaultsKeepsInvariant | visual-art-api/src/modules/customers/customers.repository.js:83-86 | clearing defaults keeps "at most one default per (user, type)" |
| CustomersRepository.WithDefault | visual-art-api/src/modules/customers/customers.repository.js:83-91 | the chosen address becomes default with the requested type; no other address of that user and type stays default; addresses of other users or types are unchanged |
| CustomersRepository.WithDefaultKeepsInvariant | visual-art-api/src/modules/customers/customers.repository.js:77-93 | choosing a default keeps "at most one default per (user, type)" for every pair |
| CustomersRepository.WithDefaultIsTheOnlyDefault | visual-art-api/src/modules/customers/customers.repository.js:77-93 | afterwards the chosen address is the one and only default of its (user, type) pair |
| CustomersRepository.Patched | visual-art-api/src/modules/customers/customers.repository.js:59-62 | a patch never changes the owner; a set field replaces the stored one, an absent one keeps it |
| CustomersRepository.EmptyPatchKeepsRow | visual-art-api/src/modules/customers/customers.repository.js:59-62 | a patch that sets nothing leaves the row as it was |
| CustomersRepository.UpdateAddressAsWritten | visual-art-api/src/modules/customers/customers.repository.js:59-67 | a missing id is a 500; otherwise the row is rewritten, and a row of another user is also answered 403 |
| CustomersRepository.ForeignAddressRewrittenAsWritten | visual-art-api/src/modules/customers/customers.repository.js:59-67 | another user's address is answered 403 and yet its street has changed |
| CustomersRepository.CustomerTables.constructor | visual-art-api/src/modules/customers/customers.repository.js:3 | the tables start empty and valid |
| CustomersRepository.CustomerTables.Write | visual-art-api/src/modules/customers/customers.repository.js:17 | the three tables are replaced at once |
| CustomersRepository.CustomerTables.CreateFullCustomer | visual-art-api/src/modules/customers/customers.repository.js:16-30 | the user, its profile and every address row are added under the new user id, and every profile and address still belongs to an existing user |
| CustomersRepository.CustomerTables.UpdateProfile | visual-art-api/src/modules/customers/customers.repository.js:48-53 | a user without a profile is a 500 and nothing changes; otherwise the payload's fields are written over the stored profile |
| CustomersRepository.CustomerTables.UpdateAddress | visual-art-api/src/modules/customers/customers.repository.js:59-67 | a missing id is a 500; another user's address is Forbidden and the table is unchanged; the owner's address is patched and returned |
| CustomersRepository.CustomerTables.DeleteAddress | visual-art-api/src/modules/customers/customers.repository.js:69-75 | an unknown id gives null; another user's address is Forbidden with nothing deleted; otherwise exactly that row goes; the default invariant is kept |
| CustomersRepository.CustomerTables.SetDefaultAddress | visual-art-api/src/modules/customers/customers.repository.js:77-93 | an unknown id gives null; another user's address is Forbidden with nothing written; otherwise the table becomes WithDefault; the default invariant is kept |
| CustomersService.DerivedName | visual-art-api/src/modules/customers/customers.service.js:39-42 | a PERSON's name is fullName; otherwise `tradeName \|\| companyName` |
| CustomersService.AcceptedProfileHasName | visual-art-api/src/modules/customers/customers.service.js:39-42 | every profile the schema accepts yields a truthy name |
| CustomersService.Recipient | visual-art-api/src/modules/customers/customers.service.js:64 | a non-empty recipient is kept; otherwise the derived name is used |
| CustomersService.ShippingAddress | visual-art-api/src/modules/customers/customers.service.js:60-65 | the shipping row is typed SHIPPING, default, with the recipient defaulting to the name |
| CustomersService.RegistrationAddresses | visual-art-api/src/modules/customers/customers.service.js:60-79 | exactly two addresses: the shipping one, then a default BILLING one that copies it when billing is absent or "same as shipping" and is the given billing address otherwise |
| CustomersService.AbsentBillingIsSameAsShipping | visual-art-api/src/modules/customers/customers.service.js:69-71 | an absent billing address and "same as shipping" give the same list |
| CustomersService.RegistrationKeepsOneDefault | visual-art-api/src/modules/customers/customers.service.js:60-85 | adding a new customer's two addresses keeps "at most one default per (user, type)" |
| CustomersService.NewRowsOneDefault | visual-art-api/src/modules/customers/customers.service.js:60-79 | a shipping row and a billing row never share a default slot |
| CustomersService.UnionWithNewOwner | visual-art-api/src/modules/customers/customers.repository.js:24-26 | rows of a user the table has no rows for cannot clash with the table's defaults |
| CustomersService.ConvertOrDrop | visual-art-api/src/modules/customers/customers.service.js:56-57 | a truthy date becomes a Date; a falsy one is dropped |
| CustomersService.ConvertIfSet | visual-art-api/src/modules/customers/customers.service.js:106-107 | a truthy date becomes a Date; a falsy one is kept as sent |
| CustomersService.RegistrationProfile | visual-art-api/src/modules/customers/customers.service.js:53-58 | every other profile field is kept; each date is present exactly when it was truthy |
| CustomersService.UpdateMeData | visual-art-api/src/modules/customers/customers.service.js:103-110 | the payload keeps its keys, every other field as sent, and a truthy date becomes a Date |
| CustomersService.RegistrationUser | visual-art-api/src/modules/customers/customers.service.js:44-51 | the user row has the email, the derived name, role CUSTOMER, is active and can log in |
| CustomersService.Customers.constructor | visual-art-api/src/modules/customers/customers.service.js:20 | the service works on the given tables |
| CustomersService.Customers.Register | visual-art-api/src/modules/customers/customers.service.js:21-95 | Conflict if the email is taken, then if a given CPF is taken, then if a given CNPJ is taken, with nothing written; registration succeeds if and only if none of the three is taken, and then the user, its converted profile and its two default addresses are created; the tables stay valid and keep the default invariant |
| CustomersService.Customers.UpdateMe | visual-art-api/src/modules/customers/customers.service.js:103-110 | the converted payload is written over the caller's profile; a caller without a profile fails with nothing written |
| CustomersService.Customers.DeleteAddress | visual-art-api/src/modules/customers/customers.service.js:120-124 | an unknown address is NotFound; otherwise as the repository's DeleteAddress |
| CustomersService.Customers.SetDefaultAddress | visual-art-api/src/modules/customers/customers.service.js:126-130 | an unknown address is NotFound; otherwise as the repository's SetDefaultAddress; the default invariant is kept |
| CustomersErp.ParseBool | visual-art-api/src/modules/customers-erp/customers-erp.service.js:10-15 | true exactly for `true` and "true", false exactly for `false` and "false", undefined for anything else |
| CustomersErp.ParseBoolReadsSpelling | visual-art-api/src/modules/customers-erp/customers-erp.service.js:10-15 | a flag's spelling and the flag itself both read back as that flag |
| CustomersErp.NewErpUser | visual-art-api/src/modules/customers-erp/customers-erp.service.js:20-31 | the new user is ERP-only, active unless told otherwise, named as sent, with phone, email and document `?? null`, no password and role CUSTOMER |
| CustomersErp.DateOrNull | visual-art-api/src/modules/customers-erp/customers-erp.service.js:40 | a truthy date becomes a Date; anything else null |
| CustomersErp.ProfileColumn | visual-art-api/src/modules/customers-erp/customers-erp.service.js:33-63 | birthDate is converted or null; type, gender, whatsapp, marketingOptIn and isBlocked default to PERSON, NOT_INFORMED, true, false and false; every other column is `?? null` |
| CustomersErp.NewErpProfile | visual-art-api/src/modules/customers-erp/customers-erp.service.js:33-63 | the profile has exactly the ERP profile columns, each as ProfileColumn gives it |
| CustomersErp.AddAddress | visual-art-api/src/modules/customers-erp/customers-erp.service.js:65-93 | the new row is SHIPPING and default unless said otherwise; a default first clears the defaults of its (user, type); a non-default leaves the other rows alone |
| CustomersErp.AddAddressKeepsInvariant | visual-art-api/src/modules/customers-erp/customers-erp.service.js:65-92 | adding an address keeps "at most one default per (user, type)" |
| CustomersErp.WithAddress | visual-art-api/src/modules/customers-erp/customers-erp.service.js:207-235 | no address in the request leaves the table unchanged; otherwise the address is added |
| CustomersErp.WithAddressKeepsOwners | visual-art-api/src/modules/customers-erp/customers-erp.service.js:218-234 | adding an address for a known user keeps every address owned by a known user |
| CustomersErp.WrittenTablesKeepInvariants | visual-art-api/src/modules/customers-erp/customers-erp.service.js:19-99 | writing a user, a profile and an optional address keeps references valid and keeps the default invariant |
| CustomersErp.UserPatch | visual-art-api/src/modules/customers-erp/customers-erp.service.js:162-167 | the user patch holds exactly the user keys the request defines, with their values (an explicit null stays null) |
| CustomersErp.ProfilePatch | visual-art-api/src/modules/customers-erp/customers-erp.service.js:174-196 | the profile patch holds exactly the profile keys the request defines; birthDate is converted or null, a null gender becomes NOT_INFORMED, the rest as sent |
| CustomersErp.Upsert | visual-art-api/src/modules/customers-erp/customers-erp.service.js:198-204 | the patch is spread over the stored profile, or over a new PERSON profile; other profiles are unchanged |
| CustomersErp.UpsertCreatesPerson | visual-art-api/src/modules/customers-erp/customers-erp.service.js:202 | a profile created by the upsert is a PERSON unless the patch names a type |
| CustomersErp.PatchedUsers | visual-art-api/src/modules/customers-erp/customers-erp.service.js:169-171 | only the customer's fields change, by the patch; an empty patch writes nothing |
| CustomersErp.PatchedProfiles | visual-art-api/src/modules/customers-erp/customers-erp.service.js:198-204 | an empty patch creates no profile; otherwise the profile is upserted |
| CustomersErp.UserOrders | visual-art-api/src/modules/customers-erp/customers-erp.service.js:328 | an order is kept if and only if it is the user's |
| CustomersErp.OfType | visual-art-api/src/modules/customers-erp/customers-erp.service.js:329-330 | an order is kept if and only if it has the type |
| CustomersErp.PaidOnes | visual-art-api/src/modules/customers-erp/customers-erp.service.js:365 | an order is kept if and only if it is PAID |
| CustomersErp.AggregateSum | visual-art-api/src/modules/customers-erp/customers-erp.service.js:364-372 | the sum is null exactly over no rows, and otherwise the sum of the rows' totals |
| CustomersErp.SumTotals | visual-art-api/src/modules/customers-erp/customers-erp.service.js:364-372 | the sum over no orders is 0, and over non-negative totals it is non-negative |
| CustomersErp.TypesPartition | visual-art-api/src/modules/customers-erp/customers-erp.service.js:328-330 | quotes and sales add up to all orders |
| CustomersErp.CustomerStats | visual-art-api/src/modules/customers-erp/customers-erp.service.js:309-392 | NotFound unless an ERP customer, and Ok for every ERP customer; ordersCount is the number of the user's orders, quotesCount and salesCount the number of its quotes and of its sales, and ordersCount = quotesCount + salesCount; the sums are the totals of the sales and of the paid sales, and 0 when there are no sales |
| CustomersErp.PaymentBreakdown | visual-art-api/src/modules/customers-erp/customers-erp.service.js:332-337 | a payment status has an entry if and only if some order of the user has it; the entry counts that group and sums its totals |
| CustomersErp.WithPayment | visual-art-api/src/modules/customers-erp/customers-erp.service.js:332-337 | an order is kept if and only if it has that payment status |
| CustomersErp.StatusBreakdown | visual-art-api/src/modules/customers-erp/customers-erp.service.js:339-344 | a status has an entry if and only if some order of the user has it; the entry counts that group and sums its totals |
| CustomersErp.WithStatus | visual-art-api/src/modules/customers-erp/customers-erp.service.js:339-344 | an order is kept if and only if it has that status |
| CustomersErp.NoOrdersZeroStats | visual-art-api/src/modules/customers-erp/customers-erp.service.js:386-392 | a customer without orders gets all-zero stats, never null |
| CustomersErp.NoOrdersOfOthers | visual-art-api/src/modules/customers-erp/customers-erp.service.js:328 | if no order is the user's, the user's orders are none |
| CustomersErp.ErpCustomers.constructor | visual-art-api/src/modules/customers-erp/customers-erp.service.js:17 | the service works on the given tables |
| CustomersErp.ErpCustomers.GetById | visual-art-api/src/modules/customers-erp/customers-erp.service.js:143-151 | NotFound unless an ERP customer with that id exists; otherwise its row |
| CustomersErp.ErpCustomers.Create | visual-art-api/src/modules/customers-erp/customers-erp.service.js:18-100 | the user, its profile and the optional address are written; the user is an ERP customer; the tables stay valid and keep the default invariant |
| CustomersErp.ErpCustomers.Update | visual-art-api/src/modules/customers-erp/customers-erp.service.js:153-242 | NotFound with nothing written unless an ERP customer; otherwise the user patch, the profile upsert and the optional address are applied, each skipped when empty; the tables stay valid and keep the default invariant |
| CustomersErp.ErpCustomers.SetActive | visual-art-api/src/modules/customers-erp/customers-erp.service.js:244-252 | NotFound unless an ERP customer; otherwise only its isActive column changes |
| CustomersErp.ErpCustomers.SetBlocked | visual-art-api/src/modules/customers-erp/customers-erp.service.js:254-265 | NotFound unless an ERP customer; otherwise isBlocked is upserted into its profile |
| CustomersErp.ErpCustomers.Remove | visual-art-api/src/modules/customers-erp/customers-erp.service.js:267-270 | a soft delete: isActive becomes false |
| CustomersErp.ErpCustomers.Restore | visual-art-api/src/modules/customers-erp/customers-erp.service.js:272-274 | isActive becomes true |
| Strings.RemoveSpaces | visual-art-erp/src/shared/utils/money.js:11 | `replace(/\s/g, '')` leaves no white space |
| Money.ReplaceFirst | visual-art-erp/src/shared/utils/money.js:11 | a string pattern replaces its first occurrence only, so a string without the pattern is unchanged |
| Money.RemoveAll | visual-art-erp/src/shared/utils/money.js:11 | `replace(/\./g, '')` leaves no '.', and changes nothing when there is none |
| Money.Normalize | visual-art-erp/src/shared/utils/money.js:11 | the numeral handed to `Number` has no white space |
| Money.ParseBRLToCents | visual-art-erp/src/shared/utils/money.js:9-15 | null or undefined gives 0; input that is not a numeral once normalised (NaN) gives 0; otherwise the result is within half a cent of the value × 100, as `Math.round` rounds |
| Money.Format2 | visual-art-erp/src/modules/quotes/pages/QuotesEditPage.jsx:97-99 | the rendering is digits, a comma, then exactly two digits |
| Money.RemoveSpacesWithoutSpaces | visual-art-erp/src/shared/utils/money.js:11 | a string without white space is left alone |
| Money.RemoveSpacesAppend | visual-art-erp/src/shared/utils/money.js:11 | removing white space distributes over concatenation |
| Money.ReplaceFirstComma | visual-art-erp/src/shared/utils/money.js:11 | in a + "," + b with no comma in a, that comma becomes the decimal point |
| Money.NormalizeFormat2 | visual-art-erp/src/shared/utils/money.js:11 | the rendering of c normalises to the numeral "reais.cents" |
| Money.ParseOfNumeral | visual-art-erp/src/shared/utils/money.js:11-14 | input that normalises to a numeral is that numeral × 100, rounded |
| Money.Format2Value | visual-art-erp/src/modules/quotes/pages/QuotesEditPage.jsx:97-99 | the rendered numeral denotes c / 100 exactly |
| Money.ParseFormatRoundTrip | visual-art-erp/src/modules/quotes/pages/QuotesEditPage.jsx:97-148 | parsing the quote editor's rendering of c gives c back |
| Money.SpacesIgnored | visual-art-erp/src/shared/utils/money.js:11 | white space anywhere in the input is ignored |
| Money.SpaceRemoved | visual-art-erp/src/shared/utils/money.js:11 | removing white space from a + " " + b gives what it gives for a + b |
| Money.NormalizePlain | visual-art-erp/src/shared/utils/money.js:11 | without white space or "R$", normalising only drops the dots and converts the first comma |
| Money.ThousandsAndDecimalComma | visual-art-erp/src/shared/utils/money.js:9-15 | "a.b,f" is read as the number ab.f, × 100 and rounded |
| Money.ParseThousandsExample | visual-art-erp/src/shared/utils/money.js:9-15 | "1.234,56" is 123456 cents |
| Money.ParseMissingExamples | visual-art-erp/src/shared/utils/money.js:10-13 | a missing input and a blank one give 0 |
| Money.ParseWordExample | visual-art-erp/src/shared/utils/money.js:12-13 | "abc" is NaN and gives 0 |
| Money.WordIsNotANumber | visual-art-erp/src/shared/utils/money.js:12 | `Number("abc")` is NaN |
| Numbers.DecimalValue | visual-art-erp/src/shared/utils/money.js:12 | a decimal numeral's value is non-negative |
| Numbers.Unsigned | visual-art-erp/src/shared/utils/money.js:12 | an unsigned numeral is non-negative, and a string of digits is the number it denotes |
| Numbers.ParseNumber | visual-art-erp/src/shared/utils/money.js:12 | `Number` of a blank string is 0 |
| Numbers.ParseDecimal | visual-art-erp/src/shared/utils/money.js:12 | `Number("ip.fp")` is the decimal value of the numeral |
| Numbers.ParseDigits | visual-art-erp/src/shared/utils/money.js:12 | `Number` of a string of digits is the number it denotes |
| Numbers.ToNumber | visual-art-ecommerce/src/services/productsStore.js:48 | `Number(null)` is 0, a number is itself, a boolean is 1 or 0 |
| Slugify.BaseLetter | visual-art-erp/src/shared/utils/slugify.js:4-5 | a lower-case ASCII letter and a digit stay as they are; a character that is not a combining mark does not become one |
| Slugify.Fold | visual-art-erp/src/shared/utils/slugify.js:3-5 | lower-casing, NFD and dropping the combining marks leaves no combining mark and never lengthens the string |
| Slugify.SkipRun | visual-art-erp/src/shared/utils/slugify.js:6 | the leading run outside [a-z0-9] is skipped, so the rest starts with a slug character or is empty |
| Slugify.Hyphenate | visual-art-erp/src/shared/utils/slugify.js:6 | every maximal run outside [a-z0-9] becomes one '-': only [a-z0-9-] remain, no "--", an empty string stays empty and the first character is kept or becomes '-' |
| Slugify.HyphenFreeHead | visual-art-erp/src/shared/utils/slugify.js:6 | a slug character or a single '-' in front of a hyphenated string creates no "--" |
| Slugify.TrimHyphens | visual-art-erp/src/shared/utils/slugify.js:7 | removing one '-' at each end of a hyphenated string leaves a slug; a string without end hyphens is unchanged |
| Slugify.Slug | visual-art-erp/src/shared/utils/slugify.js:1-8 | every result is a slug: only [a-z0-9-], no '-' at either end, no "--" |
| Slugify.DefaultIsEmpty | visual-art-erp/src/shared/utils/slugify.js:1 | the default argument gives "" |
| Slugify.FoldKeepsSlugChars | visual-art-erp/src/shared/utils/slugify.js:3-5 | folding leaves slug characters and hyphens alone |
| Slugify.HyphenateKeepsHyphenated | visual-art-erp/src/shared/utils/slugify.js:6 | hyphenating an already hyphenated string changes nothing |
| Slugify.SlugOfSlug | visual-art-erp/src/shared/utils/slugify.js:1-8 | a slug is its own slug |
| Slugify.SlugIdempotent | visual-art-erp/src/shared/utils/slugify.js:1-8 | slugifying twice is slugifying once |
| Slugify.FoldAccentExample | visual-art-erp/src/shared/utils/slugify.js:3-5 | "Ação" folds to "acao" |
| Slugify.AccentExample | visual-art-erp/src/shared/utils/slugify.js:1-8 | "Ação" becomes "acao" |
| Slugify.FoldKeepsPlain | visual-art-erp/src/shared/utils/slugify.js:3-5 | characters below 'A' and lower-case ASCII letters are not changed by folding |
| Slugify.SeparatorExample | visual-art-erp/src/shared/utils/slugify.js:1-8 | " pvc! x" becomes "pvc-x" |
| Slugify.HyphenateWordExample | visual-art-erp/src/shared/utils/slugify.js:6 | "pvc! x" hyphenates to "pvc-x" |
| Slugify.HyphenateRunExample | visual-art-erp/src/shared/utils/slugify.js:6 | "! x" hyphenates to "-x" |
| Slugify.TrimHyphensExample | visual-art-erp/src/shared/utils/slugify.js:7 | "-pvc-x" trims to "pvc-x" |
| Url.Origin | visual-art-erp/src/shared/utils/url.js:5 | a trailing "/api/v1" or "/api/v1/" is removed; any other base is kept |
| Url.ToAbsoluteUrl | visual-art-erp/src/shared/utils/url.js:1-7 | a missing or empty url gives ""; a url starting with "http" is kept; any other url is appended to the origin |
| Url.OriginOfApiBase | visual-art-erp/src/shared/utils/url.js:5 | both spellings of the API suffix are stripped back to the same origin |
| Url.AbsoluteUrlIdempotent | visual-art-erp/src/shared/utils/url.js:1-7 | with an http origin, absolutising an absolute url changes nothing |
| Url.UploadExample | visual-art-erp/src/shared/utils/url.js:1-7 | "/uploads/banner.png" under "http://localhost:3000/api/v1" becomes "http://localhost:3000/uploads/banner.png" |
| Url.UploadUrlExample | visual-art-erp/src/shared/utils/url.js:6 | the origin and the path concatenate to the full upload url |
| Url.DevelopmentOrigin | visual-art-erp/src/shared/utils/url.js:5 | the origin of "http://localhost:3000/api/v1" is "http://localhost:3000" |
| CustomersMapper.Field | visual-art-erp/src/modules/customers/customers.mapper.js:3-4 | `x?.k` reads a field of an object and is undefined for anything else |
| CustomersMapper.NormalizeCustomerResponse | visual-art-erp/src/modules/customers/customers.mapper.js:1-8 | user is `data.user \|\| data`; profile is null or truthy; addresses is truthy; a truthy `data.profile` and `data.addresses` win |
| CustomersMapper.AsResponse | visual-art-erp/src/modules/customers/customers.mapper.js:7 | the nested object has user (when present), profile and addresses |
| CustomersMapper.NormalizeNested | visual-art-erp/src/modules/customers/customers.mapper.js:1-8 | normalising an already nested response gives it back |
| CustomersMapper.NormalizeIdempotent | visual-art-erp/src/modules/customers/customers.mapper.js:1-8 | normalising is idempotent on the shape it produces |
| CustomersMapper.FlattenedMatchesNested | visual-art-erp/src/modules/customers/customers.mapper.js:1-8 | the flattened and the nested form of a customer give the same profile and addresses |
| Strings.TrimStart | visual-art-ecommerce/src/services/customersStore.js:20 | the trimmed suffix starts with no white space |
| Strings.TrimEnd | visual-art-ecommerce/src/services/customersStore.js:20 | the trimmed prefix ends with no white space |
| Strings.Trim | visual-art-ecommerce/src/services/customersStore.js:20 | `trim()` leaves no white space at either end |
| Strings.ToLower | visual-art-ecommerce/src/services/customersStore.js:20 | `toLowerCase()` keeps the length and lowers each character |
| Strings.NatToString | visual-art-api/src/service/order-code.service.js:4 | `String(n)` is a non-empty string of digits |
| Strings.NatToStringValue | visual-art-api/src/service/order-code.service.js:4 | `String(n)` denotes n |
| Strings.NatToStringNoLeadingZero | visual-art-api/src/service/order-code.service.js:4 | `String(n)` of a positive n does not start with '0' |
| Strings.Zeros | visual-art-api/src/service/order-code.service.js:4 | the padding is k zeros |
| Strings.LeadingZerosValue | visual-art-api/src/service/order-code.service.js:4 | `padStart` with zeros keeps a digit string's value |
| CustomerForm.Slice | visual-art-erp/src/modules/customers/components/CustomerModal.jsx:43-46 | `slice(a, b)` clamps both ends to the string's length |
| CustomerForm.Take | visual-art-erp/src/modules/customers/components/CustomerModal.jsx:37 | `slice(0, n)` is the first n characters, or the whole string when it is shorter |
| CustomerForm.MaskCep | visual-art-erp/src/modules/customers/components/CustomerModal.jsx:36-40 | the first 8 digits typed, plus one '-' once a sixth is typed; 8 digits or more give the 9-character ddddd-ddd with '-' at position 5 |
| CustomerForm.MaskCpf | visual-art-erp/src/modules/customers/components/CustomerModal.jsx:41-51 | the first 11 digits typed, plus one separator per group started; 11 digits or more give the 14-character ddd.ddd.ddd-dd |
| CustomerForm.MaskCnpj | visual-art-erp/src/modules/customers/components/CustomerModal.jsx:52-64 | the first 14 digits typed, plus one separator per group started; 14 digits or more give the 18-character dd.ddd.ddd/dddd-dd |
| CustomerForm.MaskCepDigits | visual-art-erp/src/modules/customers/components/CustomerModal.jsx:36-40 | the digits of a masked CEP are exactly the first 8 digits typed |
| CustomerForm.MaskCpfDigits | visual-art-erp/src/modules/customers/components/CustomerModal.jsx:41-51 | the digits of a masked CPF are exactly the first 11 digits typed |
| CustomerForm.MaskCnpjDigits | visual-art-erp/src/modules/customers/components/CustomerModal.jsx:52-64 | the digits of a masked CNPJ are exactly the first 14 digits typed |
| CustomerForm.MaskCepIdempotent | visual-art-erp/src/modules/customers/components/CustomerModal.jsx:36-40 | masking a masked CEP changes nothing |
| CustomerForm.MaskCpfIdempotent | visual-art-erp/src/modules/customers/components/CustomerModal.jsx:41-51 | masking a masked CPF changes nothing |
| CustomerForm.MaskCnpjIdempotent | visual-art-erp/src/modules/customers/components/CustomerModal.jsx:52-64 | masking a masked CNPJ changes nothing |
| CustomerForm.MaskedCepAccepted | visual-art-erp/src/modules/customers/components/CustomerModal.jsx:450-455 | a masked CEP passes the validator if and only if nothing or at least 8 digits were typed |
| CustomerForm.MaskedCpfAccepted | visual-art-erp/src/modules/customers/components/CustomerModal.jsx:368-373 | a masked CPF passes the validator if and only if nothing or at least 11 digits were typed |
| CustomerForm.MaskedCnpjAccepted | visual-art-erp/src/modules/customers/components/CustomerModal.jsx:330-335 | a masked CNPJ passes the validator if and only if nothing or at least 14 digits were typed |
| CustomerForm.DigitsOf | visual-art-erp/src/modules/customers/components/CustomerModal.jsx:33-35 | the result is all digits, and for a string it is that string's digits |
| CustomerForm.OrDefault | visual-art-erp/src/modules/customers/components/CustomerModal.jsx:173-176 | `v.k \|\| d` is the field when it is truthy and the default otherwise |
| CustomerForm.DigitsOrNull | visual-art-erp/src/modules/customers/components/CustomerModal.jsx:185 | a truthy field gives a string of digits, any other gives null |
| CustomerForm.Rename | visual-art-erp/src/modules/customers/components/CustomerModal.jsx:209-214 | a present field is carried over under its new name, an absent one is left out |
| CustomerForm.AddressPayload | visual-art-erp/src/modules/customers/components/CustomerModal.jsx:203-216 | the address has a zip code made of digits, is the default address, and its type is the chosen one or SHIPPING |
| CustomerForm.SubmitPayload | visual-art-erp/src/modules/customers/components/CustomerModal.jsx:172-218 | CPF and CNPJ are digits or null, `isActive` defaults to true, and an address with a digit zip code is sent if and only if a zip code was typed |
| CustomerForm.ProfileFields | visual-art-erp/src/modules/customers/components/CustomerModal.jsx:173-200 | the payload has exactly the sixteen person, company and contact keys; a blank field is sent as null, never as "", and the three checkboxes are sent as booleans |
| CustomerForm.SubmittedDocumentsAlreadyNormal | visual-art-api/src/modules/customers/customers.schemas.js:61-83 | the API's digit stripping leaves the CPF and CNPJ the form sends unchanged |
| CustomerForm.AcceptedZipPassesApi | visual-art-erp/src/modules/customers/components/CustomerModal.jsx:446-462 | a zip code the form accepted and that holds digits is sent and satisfies the API's 8-digit rule |
| ProductEdit.Copied | visual-art-erp/src/modules/catalog/pages/ProductEditPage.jsx:174-182 | `k: v.k` keeps exactly the keys of v among those listed, with their values |
| ProductEdit.NullDefaults | visual-art-erp/src/modules/catalog/pages/ProductEditPage.jsx:183-190 | each listed key is present, holding `v.k ?? null` |
| ProductEdit.BasePrice | visual-art-erp/src/modules/catalog/pages/ProductEditPage.jsx:192-205 | a base price is kept (`?? null`) when the pricing model owns it and is null otherwise |
| ProductEdit.Defaulted | visual-art-erp/src/modules/catalog/pages/ProductEditPage.jsx:176-178 | description and category are the field when truthy and null otherwise, `active` defaults to true, and each base price is the one BasePrice keeps |
| ProductEdit.CleanPayload | visual-art-erp/src/modules/catalog/pages/ProductEditPage.jsx:172-208 | the payload has the copied fields present in v, every bound and minimum as `?? null`, and the defaulted fields |
| ProductEdit.MergeDisjoint | visual-art-erp/src/modules/catalog/pages/ProductEditPage.jsx:173-195 | merging groups of fields with disjoint keys keeps every field of each group |
| ProductEdit.KeyGroupsDisjoint | visual-art-erp/src/modules/catalog/pages/ProductEditPage.jsx:173-195 | the copied, bound and defaulted keys are three disjoint groups |
| ProductEdit.BasePriceKeysFacts | visual-art-erp/src/modules/catalog/pages/ProductEditPage.jsx:197-199 | each base-price field belongs to a different pricing model |
| ProductEdit.CleanBasePrice | visual-art-erp/src/modules/catalog/pages/ProductEditPage.jsx:192-205 | each base price of the cleaned payload is the one BasePrice keeps |
| ProductEdit.AtMostOneBasePrice | visual-art-erp/src/modules/catalog/pages/ProductEditPage.jsx:197-205 | a non-null base price belongs to the chosen pricing model and every other base price is null |
| ProductEdit.QuoteClearsBasePrices | visual-art-erp/src/modules/catalog/pages/ProductEditPage.jsx:201-205 | a QUOTE product is saved with every base price null |
| ProductEdit.CleanIdempotent | visual-art-erp/src/modules/catalog/pages/ProductEditPage.jsx:172-208 | cleaning a cleaned payload changes nothing |
| ProductEdit.CleanFieldStable | visual-art-erp/src/modules/catalog/pages/ProductEditPage.jsx:172-208 | each field of a cleaned payload survives a second cleaning |
| ProductEdit.DefaultedIdempotent | visual-art-erp/src/modules/catalog/pages/ProductEditPage.jsx:176-205 | the defaulted fields of a cleaned payload clean to themselves |
| ProductEdit.DefaultedExt | visual-art-erp/src/modules/catalog/pages/ProductEditPage.jsx:176-205 | two objects over the defaulted keys that agree field by field are equal |
| Lists.FindIndex | visual-art-ecommerce/src/services/customersStore.js:97 | `findIndex` is -1 exactly when no element matches, and otherwise the first matching position |
| Lists.Filter | visual-art-ecommerce/src/services/customersStore.js:128 | `filter` keeps exactly the elements that pass, in order, and never lengthens the list |
| Lists.FilterAppend | visual-art-ecommerce/src/services/productsStore.js:111 | filtering distributes over concatenation |
| Lists.FilterKeepsAll | visual-art-ecommerce/src/services/productsStore.js:111 | when every element passes, filtering changes nothing |
| Lists.FilterIdempotent | visual-art-ecommerce/src/services/productsStore.js:111 | filtering twice is filtering once |
| Lists.DistinctPrepend | visual-art-ecommerce/src/services/customersStore.js:90 | putting a record with a new key in front keeps keys distinct |
| Lists.DistinctAppend | visual-art-ecommerce/src/services/campaigns.storage.js:21 | pushing a record with a new key keeps keys distinct |
| Lists.DistinctReplace | visual-art-ecommerce/src/services/customersStore.js:121-122 | replacing a record with one whose key no other record has keeps keys distinct |
| Lists.FilterKeepsDistinct | visual-art-ecommerce/src/services/customersStore.js:128 | filtering keeps keys distinct |
| Json.Spread | visual-art-ecommerce/src/services/ordersStore.js:100-104 | `{...a, ...b}` has the keys of both, b's value wins, a's value stays where b has none |
| Json.Coalesce | visual-art-erp/src/modules/catalog/pages/ProductEditPage.jsx:183 | `x ?? d` is x unless it is null or undefined, then d |
| Json.OrElse | visual-art-erp/src/modules/customers/customers.mapper.js:3 | `a \|\| b` is a when a is truthy, else b |
| Json.SameObject | visual-art-ecommerce/src/services/ordersStore.js:100-104 | two objects with the same keys and the same value at each are equal |
| StoredLists.IndexOfId | visual-art-ecommerce/src/services/productsStore.js:87 | `findIndex((p) => p.id === id)`: -1 exactly when no record has the id, else the first one that has it |
| StoredLists.WithoutId | visual-art-ecommerce/src/services/productsStore.js:109-114 | `filter((p) => p.id !== id)` keeps exactly the records with another id |
| StoredLists.PatchedOr | visual-art-ecommerce/src/services/productsStore.js:94-99 | `patch.k != null ? x : current.k`: the new value when the patch sets the field, the current one otherwise |
| StoredLists.WithoutIdAppend | visual-art-ecommerce/src/services/ordersStore.js:121-125 | removing an id distributes over concatenation |
| StoredLists.WithoutAbsentId | visual-art-ecommerce/src/services/ordersStore.js:121-125 | deleting an id no record has changes nothing |
| StoredLists.WithoutIdIdempotent | visual-art-ecommerce/src/services/ordersStore.js:121-125 | deleting the same id twice is deleting it once |
| StoredLists.WithoutIdKeepsDistinct | visual-art-ecommerce/src/services/ordersStore.js:121-125 | deleting keeps any key distinct |
| CustomersStore.NormalizeEmail | visual-art-ecommerce/src/services/customersStore.js:19-21 | the normalised e-mail has no white space at either end |
| CustomersStore.LowerKeepsEnds | visual-art-ecommerce/src/services/customersStore.js:20 | lower-casing keeps ends free of white space |
| CustomersStore.ArrayOr | visual-art-ecommerce/src/services/customersStore.js:85 | `Array.isArray(x) ? x : []` is always an array, and x when it is one |
| CustomersStore.NewCustomer | visual-art-ecommerce/src/services/customersStore.js:79-88 | the new record has exactly the store's fields: the normalised e-mail, the trimmed name and phone, `active` unless it was false, the payload's address array or [], the id and both stamps |
| CustomersStore.UpdatedCustomer | visual-art-ecommerce/src/services/customersStore.js:110-119 | each field of the updated record is the one the spread and the overrides give; the lemmas UpdatedCustomerFields and UpdatedCustomerKeepsOthers state the field-by-field reading |
| CustomersStore.UpdatedCustomerFields | visual-art-ecommerce/src/services/customersStore.js:110-119 | the e-mail is the next e-mail, the stamp is now, and name, phone, active and addresses come from the patch when it sets them and stay otherwise |
| CustomersStore.UpdatedCustomerKeepsOthers | visual-art-ecommerce/src/services/customersStore.js:111-112 | every other field comes from the patch when it has it, else from the current record |
| CustomersStore.NextEmail | visual-art-ecommerce/src/services/customersStore.js:100-101 | the next e-mail is already normalised; without an e-mail in the patch it is the record's own |
| CustomersStore.Conflicts | visual-art-ecommerce/src/services/customersStore.js:103-107 | an update conflicts exactly when it changes the e-mail to one that some record already has; a patch without an e-mail never conflicts |
| CustomersStore.IndexOfEmail | visual-art-ecommerce/src/services/customersStore.js:64 | the first record with the e-mail, or -1 exactly when none has it |
| CustomersStore.CustomerStore.constructor | visual-art-ecommerce/src/services/customersStore.js:56-60 | the store holds the stored list |
| CustomersStore.CustomerStore.GetCustomerByEmail | visual-art-ecommerce/src/services/customersStore.js:62-65 | a found record is stored and has the normalised e-mail; none is found exactly when no record has it |
| CustomersStore.CustomerStore.SeedIfEmpty | visual-art-ecommerce/src/services/customersStore.js:23-54 | a non-empty store is returned unchanged; an empty one is filled with the seed |
| CustomersStore.CustomerStore.CreateCustomer | visual-art-ecommerce/src/services/customersStore.js:67-93 | a blank e-mail and an e-mail in use are refused without change; creation succeeds if and only if the e-mail is neither, and then the new record goes first; e-mails stay unique |
| CustomersStore.CustomerStore.UpdateCustomer | visual-art-ecommerce/src/services/customersStore.js:95-125 | null exactly for an unknown id; a refusal exactly when a known record's e-mail would move onto one in use; otherwise the record is replaced in place by the updated one; e-mails stay unique |
| CustomersStore.CustomerStore.DeleteCustomer | visual-art-ecommerce/src/services/customersStore.js:127-131 | the records with the id are removed; e-mails stay unique |
| CustomersStore.LowerTwice | visual-art-ecommerce/src/services/customersStore.js:20 | lower-casing twice is lower-casing once |
| CustomersStore.TrimOfTrimmed | visual-art-ecommerce/src/services/customersStore.js:20 | trimming a trimmed string changes nothing |
| CustomersStore.NormalizeEmailIdempotent | visual-art-ecommerce/src/services/customersStore.js:19-21 | normalising a normalised e-mail changes nothing |
| CustomersStore.NormalizeTrimmed | visual-art-ecommerce/src/services/customersStore.js:19-21 | a trimmed e-mail normalises to its lower case |
| CustomersStore.UpdateKeepsEmailsUnique | visual-art-ecommerce/src/services/customersStore.js:100-122 | an update that passed the conflict check keeps e-mails unique |
| CustomersStore.CreatedIsFound | visual-art-ecommerce/src/services/customersStore.js:62-92 | the record just created is the first one found by its e-mail |
| CustomersStore.FoundIsOnly | visual-art-ecommerce/src/services/customersStore.js:62-65 | with unique e-mails, the record found by e-mail is the only one with it |
| ProductsStore.NumberOrZero | visual-art-ecommerce/src/services/productsStore.js:71 | `Number(x \|\| 0)` is 0 for a falsy value, the number itself for a number, and a number or NaN (null) otherwise |
| ProductsStore.NewProduct | visual-art-ecommerce/src/services/productsStore.js:65-77 | the new record has only the product fields, each as createProduct builds it |
| ProductsStore.UpdatedProduct | visual-art-ecommerce/src/services/productsStore.js:91-101 | each field of the updated record is the one the spread and the overrides give; the lemmas UpdateKeepsAbsentFields and UpdateTakesPlainFields state the field-by-field reading |
| ProductsStore.ActiveOnly | visual-art-ecommerce/src/services/productsStore.js:121 | exactly the active products are kept |
| ProductsStore.ProductStore.constructor | visual-art-ecommerce/src/services/productsStore.js:53-57 | the store holds the stored list |
| ProductsStore.ProductStore.SeedIfEmpty | visual-art-ecommerce/src/services/productsStore.js:15-51 | a non-empty store is returned unchanged; an empty one is filled with the given list, or the samples when that is empty |
| ProductsStore.ProductStore.CreateProduct | visual-art-ecommerce/src/services/productsStore.js:63-83 | a title that is not text, or a description or image url that is present but not text, fails `trim` with no change; otherwise the new record goes first |
| ProductsStore.ProductStore.UpdateProduct | visual-art-ecommerce/src/services/productsStore.js:85-107 | null exactly for an unknown id; a failure with no change exactly when a known product gets a patch whose texts cannot be trimmed; otherwise the record is replaced in place |
| ProductsStore.ProductStore.DeleteProduct | visual-art-ecommerce/src/services/productsStore.js:109-114 | the records with the id are removed; ids stay unique |
| ProductsStore.ProductStore.GetActiveProducts | visual-art-ecommerce/src/services/productsStore.js:120-122 | exactly the stored products that are active |
| ProductsStore.NewProductStamps | visual-art-ecommerce/src/services/productsStore.js:65-76 | the new product has the id, the trimmed title and both stamps equal to now |
| ProductsStore.NewProductDefaults | visual-art-ecommerce/src/services/productsStore.js:69-74 | the label falls back to the category, a missing description becomes "", a falsy price 0, and both flags are booleans |
| ProductsStore.NewProductLabel | visual-art-ecommerce/src/services/productsStore.js:69 | the label is `categoryLabel \|\| category` |
| ProductsStore.NewProductDesc | visual-art-ecommerce/src/services/productsStore.js:70 | a missing description becomes "" |
| ProductsStore.NewProductPrice | visual-art-ecommerce/src/services/productsStore.js:71 | a falsy price becomes 0 |
| ProductsStore.NewProductActive | visual-art-ecommerce/src/services/productsStore.js:73 | `active` is the truthiness of the payload's flag |
| ProductsStore.NewProductFeatured | visual-art-ecommerce/src/services/productsStore.js:74 | `featured` is the truthiness of the payload's flag |
| ProductsStore.UpdateKeepsAbsentFields | visual-art-ecommerce/src/services/productsStore.js:92-100 | a field the patch does not have keeps its value |
| ProductsStore.UpdateTakesPlainFields | visual-art-ecommerce/src/services/productsStore.js:93 | a field the patch has and no override touches takes the patch's value |
| ProductsStore.ActiveAfterCreate | visual-art-ecommerce/src/services/productsStore.js:80-121 | after a create the active list gains the new product in front exactly when it is active |
| ProductsStore.ActiveOnlyAppend | visual-art-ecommerce/src/services/productsStore.js:121 | the active filter distributes over concatenation |
| OrdersStore.PatchedOrder | visual-art-ecommerce/src/services/ordersStore.js:100-104 | the stamp is now, every other field comes from the patch when it has it and from the order otherwise |
| OrdersStore.BulkPatched | visual-art-ecommerce/src/services/ordersStore.js:113-116 | the length is kept; orders whose id is listed are patched, the others are unchanged |
| OrdersStore.OrderStore.constructor | visual-art-ecommerce/src/services/ordersStore.js:85-89 | the store holds the stored list |
| OrdersStore.OrderStore.SeedIfEmpty | visual-art-ecommerce/src/services/ordersStore.js:38-83 | a non-empty store is returned unchanged; an empty one is filled with the samples |
| OrdersStore.OrderStore.UpdateOrder | visual-art-ecommerce/src/services/ordersStore.js:95-110 | an unknown id gives null and no change; otherwise the first order with the id is replaced by the patched one |
| OrdersStore.OrderStore.BulkUpdate | visual-art-ecommerce/src/services/ordersStore.js:112-119 | the orders become the bulk-patched list; ids stay unique when the patch has no id |
| OrdersStore.OrderStore.DeleteOrderHard | visual-art-ecommerce/src/services/ordersStore.js:121-125 | the orders with the id are removed; ids stay unique |
| OrdersStore.BulkKeepsIds | visual-art-ecommerce/src/services/ordersStore.js:113-116 | a patch without an id keeps every order's id, so unique ids stay unique |
| OrdersStore.BulkWithoutIds | visual-art-ecommerce/src/services/ordersStore.js:112-119 | a bulk update of no ids changes nothing |
| OrdersStore.BulkOfOneIsUpdate | visual-art-ecommerce/src/services/ordersStore.js:95-119 | with unique ids, a bulk update of one id is the single update |
| CampaignsStorage.LoadCampaigns | visual-art-ecommerce/src/services/campaigns.storage.js:3-11 | nothing stored and a falsy value give []; a truthy value is returned; the result is always truthy |
| CampaignsStorage.Upserted | visual-art-ecommerce/src/services/campaigns.storage.js:17-24 | a new id is pushed at the end; a known id has its first record replaced and every other record kept |
| CampaignsStorage.CampaignStorage.constructor | visual-art-ecommerce/src/services/campaigns.storage.js:3-11 | the storage holds the stored list |
| CampaignsStorage.CampaignStorage.UpsertCampaign | visual-art-ecommerce/src/services/campaigns.storage.js:17-24 | the campaign is returned and the list becomes the upserted one; ids stay unique |
| CampaignsStorage.CampaignStorage.DeleteCampaign | visual-art-ecommerce/src/services/campaigns.storage.js:26-29 | the campaigns with the id are removed; ids stay unique |
| CampaignsStorage.UpsertKeepsIdsUnique | visual-art-ecommerce/src/services/campaigns.storage.js:17-24 | upserting keeps ids unique |
| CampaignsStorage.UpsertThenFound | visual-art-ecommerce/src/services/campaigns.storage.js:17-24 | after an upsert, the first record with the campaign's id is the campaign |
| CampaignsStorage.UpsertIdempotent | visual-art-ecommerce/src/services/campaigns.storage.js:17-24 | upserting the same campaign twice is upserting it once |
| Settings.MergedSection | visual-art-ecommerce/src/pages/admin/SettingsPage.jsx:71-75 | a section is `{...(b.s \|\| {}), ...(i.s \|\| {})}`: the fields of both, the incoming one winning |
| Settings.MergeObjects | visual-art-ecommerce/src/pages/admin/SettingsPage.jsx:68-76 | the keys of both plus the five sections; a top-level incoming key wins over the base; each section is the merged section |
| Settings.SafeMerge | visual-art-ecommerce/src/pages/admin/SettingsPage.jsx:65-77 | a missing or non-object base is read as `{}`, so the result is the incoming object merged into nothing; a missing or non-object incoming value is read as `{}`, so the base is merged with nothing; two objects are merged field by field |
| Settings.LoadSettings | visual-art-ecommerce/src/pages/admin/SettingsPage.jsx:79-88 | nothing stored gives the defaults; anything stored is merged over the defaults |
| Settings.NullIsEmpty | visual-art-ecommerce/src/pages/admin/SettingsPage.jsx:66-67 | null, undefined and `{}` merge alike on either side |
| Settings.MergeEmptyKeeps | visual-art-ecommerce/src/pages/admin/SettingsPage.jsx:65-77 | merging nothing over settings that have every section changes nothing |
| Settings.MergedFieldEmpty | visual-art-ecommerce/src/pages/admin/SettingsPage.jsx:68-76 | merging nothing keeps each field |
| Settings.SpreadEmpty | visual-art-ecommerce/src/pages/admin/SettingsPage.jsx:71 | spreading `{}` over an object changes nothing |
| Settings.SpreadTwice | visual-art-ecommerce/src/pages/admin/SettingsPage.jsx:71 | spreading the same object twice is spreading it once |
| Settings.DefaultsAreSectioned | visual-art-ecommerce/src/pages/admin/SettingsPage.jsx:28-63 | the defaults have all five sections as objects |
| Settings.EmptyStoredIsDefaults | visual-art-ecommerce/src/pages/admin/SettingsPage.jsx:79-88 | nothing stored and a stored `{}` both load as the defaults |
| Settings.LoadIsMergeOverDefaults | visual-art-ecommerce/src/pages/admin/SettingsPage.jsx:83-84 | a stored value loads as that value merged over the defaults |
| Settings.MergeKeepsBaseFields | visual-art-ecommerce/src/pages/admin/SettingsPage.jsx:71-75 | a field of a base section is still present after merging |
| Settings.LoadedHasEveryDefault | visual-art-ecommerce/src/pages/admin/SettingsPage.jsx:79-88 | whatever is stored, every default field of every section is present after loading |
| Settings.StoredFieldWins | visual-art-ecommerce/src/pages/admin/SettingsPage.jsx:71-75 | a stored section field overrides the default |
| Settings.MergeTwice | visual-art-ecommerce/src/pages/admin/SettingsPage.jsx:65-77 | merging the same incoming settings twice is merging them once |
| Settings.SectionMergeTwice | visual-art-ecommerce/src/pages/admin/SettingsPage.jsx:71-75 | merging a section twice is merging it once |
| Settings.MergedSectionRead | visual-art-ecommerce/src/pages/admin/SettingsPage.jsx:71-75 | a section of the merge, read back, is the spread of the two sections |
| Categories.LabelOf | visual-art-ecommerce/src/pages/ProductsPage.jsx:20 | the label is `categoryLabel` when truthy, else the category |
| Categories.IndexOfKey | visual-art-ecommerce/src/pages/ProductsPage.jsx:21 | the position of a key among the map's entries, or -1 exactly when it is absent |
| Categories.BuildCategories | visual-art-ecommerce/src/pages/ProductsPage.jsx:15-31 | "Todos" first, then one entry per distinct category in first-seen order, each with the label of its last product |
| Categories.KeysAreCategories | visual-art-ecommerce/src/pages/ProductsPage.jsx:18-22 | the keys are exactly the categories the products use |
| Categories.KeysDistinct | visual-art-ecommerce/src/pages/ProductsPage.jsx:16-21 | no category appears twice |
| Categories.KeysPrefix | visual-art-ecommerce/src/pages/ProductsPage.jsx:18-22 | the keys of a prefix of the products come first in the same order |
| Categories.KeysCount | visual-art-ecommerce/src/pages/ProductsPage.jsx:16-24 | there are as many entries as distinct categories |
| Categories.CategorySetStep | visual-art-ecommerce/src/pages/ProductsPage.jsx:18-22 | one more product adds its category, if it has one, to the set of categories |
| Categories.SkipStep | visual-art-ecommerce/src/pages/ProductsPage.jsx:19 | a product without a category leaves the entries unchanged |
| Categories.SetStep | visual-art-ecommerce/src/pages/ProductsPage.jsx:20-21 | `map.set` replaces the label of a known key in place and appends a new key at the end |
| Categories.EntriesLabels | visual-art-ecommerce/src/pages/ProductsPage.jsx:18-24 | each entry pairs a category with the label of its last product |
| NavKeys.Position | visual-art-ecommerce/src/components/layout/Navbar.jsx:18-25 | the first position holding the key, or the length when it is absent |
| NavKeys.MostSpecific | visual-art-ecommerce/src/components/layout/Navbar.jsx:18-25 | none exactly when no non-home key starts the path; otherwise a matching key of greatest length, and no earlier key of that length matches |
| NavKeys.SelectedKey | visual-art-ecommerce/src/components/layout/Navbar.jsx:13-29 | "/" exactly for the home path; otherwise "" or a listed key starting the path, never shorter than another match, and "" only when no non-empty key matches |
| NavKeys.FirstPrefix | visual-art-ecommerce/src/components/admin/AdminLayout.jsx:36 | none exactly when no key starts the path, else the first key that does |
| NavKeys.SelectedAdminKey | visual-art-ecommerce/src/components/admin/AdminLayout.jsx:35-38 | always a menu key; one starting the path when there is one, the dashboard otherwise |
| NavKeys.AdminKeysPrefixFree | visual-art-ecommerce/src/components/admin/AdminLayout.jsx:35-38 | no back office menu key starts another |
| NavKeys.PrefixKeepsSlices | visual-art-ecommerce/src/components/admin/AdminLayout.jsx:36 | a prefix agrees with the string on every slice it covers |
| NavKeys.PrefixesNest | visual-art-ecommerce/src/components/layout/Navbar.jsx:23-25 | of two prefixes of a path, the shorter starts the longer |
| NavKeys.SubpageSelectsItsItem | visual-art-ecommerce/src/components/admin/AdminLayout.jsx:35-38 | every page under a menu item's path selects that item |
| Cart.Added | visual-art-ecommerce/src/context/CartContext.jsx:13 | adding one increases the count |
| Cart.Removed | visual-art-ecommerce/src/context/CartContext.jsx:14 | removing one lowers a positive count by one and never goes below zero |
| Cart.CartCounter.constructor | visual-art-ecommerce/src/context/CartContext.jsx:7 | the counter starts at 3 |
| Cart.CartCounter.SetCount | visual-art-ecommerce/src/context/CartContext.jsx:12 | the setter stores the given value |
| Cart.CartCounter.AddOne | visual-art-ecommerce/src/context/CartContext.jsx:13 | the count becomes the added count |
| Cart.CartCounter.RemoveOne | visual-art-ecommerce/src/context/CartContext.jsx:14 | the count becomes the removed count |
| Cart.CartCounter.Clear | visual-art-ecommerce/src/context/CartContext.jsx:15 | the count becomes 0 |
| Cart.RemoveUndoesAdd | visual-art-ecommerce/src/context/CartContext.jsx:13-14 | removing after adding gives a non-negative count back |
| Cart.AddUndoesRemove | visual-art-ecommerce/src/context/CartContext.jsx:13-14 | adding after removing gives a positive count back, and 1 from zero |
| Cart.RemoveTimesFloorsAtZero | visual-art-ecommerce/src/context/CartContext.jsx:14 | removing k times from n leaves max(0, n - k) |

## Left out

- HTTP routing, controllers, JWT authentication and role checks, request validation middleware and the error handler are not modelled. Errors are the `Errors.Error` datatype with the status the helpers would attach.
- bcrypt password hashing and the token issued at registration are not modelled.
- Prisma query building is not modelled: filters, includes, ordering, and the ERP `list` and `listCustomerOrders` queries. Tables are maps and sequences.
- Database defaults and generated ids and timestamps are parameters.
- Concurrency is not modelled. Each service call is one sequential all-or-nothing step, and DB locking is not represented.
- JavaScript floating point is not modelled: rounding artefacts in `toMeters`, `toFixed` and `toLocaleString`. Amounts are exact rationals. `formatCentsBRL` and the other locale formatters are not modelled.
- The zod schemas are used only as preconditions: quantities 1..999, positive dimensions, non-negative prices, a positive step and minimum area. The exception is customers.schemas.js: its type checks, defaults, key stripping and custom refinements are modelled.
- CatalogAdmin.ProductCatalog.Create: the product create/update schemas declare no `slug` key, so zod would strip one. The service still branches on `payload.slug`, and the model follows the service.
- CatalogAdmin.ProductCatalog.Create: `makeSlug` (a wrapper over the `slugify` package) is a function parameter.
- Product `listPublic`, `getBySlug`, `addImage`, `addOption` and `updateStock` are not modelled. They are plain reads and inserts with no rule beyond an existence check.
- The order service imports the sequencer from `src/services/`, but the file lives in `src/service/`. The model treats the import as resolved.
- Pagination.GetPagination: page and page size are integers or absent. `Number()` of a non-numeric or fractional query value is not modelled.
- CustomersService.Customers.Register: with `sameAsShipping: false`, the source spreads the whole billing input, including the `sameAsShipping` key, into the address row. The typed address row has no such column.
- CustomersService.Customers.Register: `createAddress` and `addAddress` on their own are not modelled. Registration creates addresses through `createFullCustomer`.
- CustomersService.Customers.UpdateMe: `new Date(x)` is the `Date` wrapper value. Date parsing is not modelled.
- Money.ParseBRLToCents: the input is a string or absent. `String()` of other values is not modelled.
- Numbers.ParseNumber: `Number()` of exponent, hexadecimal and `Infinity` spellings is treated as NaN.
- Slugify.Fold: accent stripping uses a table over the Latin-1 letters, not full Unicode NFD.
- CustomerForm.DigitsOf: `String()` of a non-string form value gives "".
- CustomerForm.SubmitPayload: `birthDate.toISOString()` is a `Date` wrapper of the picked value.
- CustomersMapper.Field: reading a field of a non-object gives undefined. Property reads on strings and arrays are not modelled.
- Numbers.ToNumber: `Number()` of arrays and objects is not modelled.
- CustomersStore.NormalizeEmail: `String()` of a non-string e-mail gives "".
- CustomersStore.NewCustomer: `String(x || "")` of a truthy non-string name or phone (a number, `true`, an object) gives "" here, not its JavaScript rendering.
- CustomersStore.UpdatedCustomer: `String(x)` of a non-string name or phone in the patch gives "" here, not its JavaScript rendering.
- CustomersStore.UpdatedCustomerFields: the same; a non-string name or phone in the patch is stored as "".
- Strings.ToLower: only ASCII capitals and the Latin-1 capitals U+00C0 to U+00DE (except U+00D7) are lowered; the rest of Unicode case mapping is not modelled.
- CustomerSchemas.ParseProfile: the `.datetime()` format checks of `birthDate` and `termsAcceptedAt` are not modelled; any string passes.
- CustomerSchemas.NormalizeProfile: an explicit `undefined` is not distinguished from an absent key, since a JSON body cannot carry one.
- StoredLists.IndexOfId: ids are compared structurally. This agrees with `===` on the strings and numbers the stores use as ids.
- Local-storage reading and writing are left out: JSON serialisation, `safeJsonParse`, and the "not an array reads as []" guard. Each store's list is its `seq` field.
- The seed data are parameters.
- `clearCustomers`, `clearProducts`, `clearOrders`, `getProductById`, `getAllX` and `setAllOrders` are not modelled. They are direct storage access.
- `console.log` in `createCustomer` is not modelled.
- ProductsStore.NumberOrZero: NaN is represented as `null`, as `JSON.stringify` would store it.
- OrdersStore.OrderStore.BulkUpdate: the source calls `nowISO()` once per patched order. The model uses one `now` for the whole call.
- Settings.SafeMerge: a string or array `base` or `incoming` is treated as `{}`. JavaScript would spread its indices.
- CampaignsStorage.LoadCampaigns: a stored truthy value that is not an array is returned as it is, as in the source. The store class holds only lists.
- NavKeys.SelectedKey: NAV_ITEMS is a parameter, since the shop's navigation config is not part of this model. The stable sort followed by `find` is modelled as the longest match, earliest among equals.
- Categories.BuildCategories: map keys are compared structurally. JavaScript's `Map` uses SameValueZero.
- Cart.CartCounter.AddOne: the count is an unbounded integer, not a JavaScript number.
- React rendering, hooks and every other page-level view derivation are not modelled.
- The mock logins, the other front-end API clients and `seed.js` population are not modelled. The seeded banner and sticker configurations appear only as example inputs in `SeedExamples`.

## Findings

| source | as written | input that shows it | evidently intended | confidence | as-written member | corrected member |
|---|---|---|---|---|---|---|
| visual-art-api/src/modules/quotes/quotes.service.js:136-138 | a second conversion calls `conflict(...)`, which this file never defines, so it throws a ReferenceError and the client gets a 500 | convert a quote, then convert it again | a 409 Conflict, like the other services' `conflict` helper | high; not executed | Checkout.SecondConversionIs500AsWritten | Checkout.ConvertingTwiceFails |
| visual-art-api/src/modules/orders/orders.service.js:24, 55-65 | each line's stock check compares with the quantity loaded before the loop, while the decrements accumulate | two lines of 3 of the same product with stock 5: both pass and stock ends at −1 | check each line against the stock left by the earlier lines, so stock never goes negative | high; not executed | Orders.StockCanGoNegativeAsWritten | Orders.SaleStockAccounting |
| visual-art-api/src/modules/customers/customers.repository.js:59-67 | the address is updated before the ownership check, outside any transaction, so a 403 still leaves the row changed | user "intruder" updates the street of another user's address "addr-1" | check ownership first and leave another user's row untouched | high; not executed | CustomersRepository.ForeignAddressRewrittenAsWritten | CustomersRepository.CustomerTables.UpdateAddress |
