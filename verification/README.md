# PatriotSigns business rules in Dafny

This project models the business rules of the PatriotSigns Odoo add-ons. They are used by a sign shop that estimates, builds and installs architectural signage for construction projects. The project also models the pure parts of two maintenance scripts: one copies data between Odoo databases, the other exports a database to CSV. Each compute, onchange and action method becomes a pure function over immutable records. Each workflow action becomes a transition on a small state record. The properties the code promises are stated as contracts and lemmas and proved.

The model is organised by the system's own areas:

- **Panel signs.** Signs per 13×19 press mold, mold and sheet counts, stock overrun, waste, and the $5-rounded sell price. They appear in the estimate line (`EstimateLines`), the sign type's auto-price (`SignTypes`), both sale-order-line pricing engines (`SaleOrderLines`, `PanelPricing`), and the rewrite of manufacturing-order components (`MrpRewrite`). The shared geometry lives in `PanelFit`.
- **Construction billing.**
  - Pay applications follow the line structure of AIA Document G702 and its G703 continuation sheet (`PayApplications`).
  - Contracts and retainage (`Contracts`) and schedules of values (`Schedules`).
  - Bid, cost and profit of an opportunity (`LeadProfit`) and estimates (`Estimates`).
- **Workflows.**
  - Shop-floor tasks (`Tasks`), time punches (`TimePunches`), the time-clock kiosk (`Kiosk`) and hour totals (`Hours`).
  - Projects created from opportunities (`Projects`, `CrmLeads`), automatic estimates (`EstimatingLeads`).
  - Installations, production orders, submittals and sign instances.
- **Names and extraction.** Dimension names and feet-and-inch displays (`SignDimensions`), location and instance names, and the field assembly of the invitation-to-bid email ingestor (`ItbIngest`).
- **Browser widgets.** The drawing viewer (`PdfViewer`), the sign tally (`SignTally`), the task picker (`TaskSelector`), the search box (`AiSearch`) and the barcode kiosk (`BarcodeKiosk`).
- **Scripts.** The export queue and cell formatting (`ExportQueue`), and the id map, field filter and value preparation of the replicator (`Replicate`).

Conventions:

- Money, inches, hours and scales are exact `real`s, an idealisation of Python and JavaScript floats. Counts and ids are `int`s, and 0 stands for an unset many-to-one.
- Date-times are integer seconds and dates are day numbers. The current time is always a parameter (`now`, `today`).
- Python's `//` and `int()` on floats, JavaScript's `Math.round` and `%`, and Python's round-half-to-even `round` are written out explicitly in `Arith`.
- A price rounded to $5 is stated as "a multiple of 5 within 2.5 of the raw price", which leaves the tie-break open.
- Database searches are inputs: the records searched, or a function standing for the target database's answer. Records created are returned as new values.
- An optional add-on that may be missing is a boolean parameter. The code's `env.get` lookups of such an add-on are modelled by `OdooEnv`, under which the guards as written never pass (see Findings).
- Error paths are modelled with `Result` and `Option`.
- `Sums`, `Text` and `Numerals` give sums, string operations (lower-casing, stripping, splitting, `str()` of numbers) and their laws once, for all modules.

The drawing viewer of the code supports point bookmarks only. It has no polygon or lasso capture, no point-in-polygon hit-testing, no resize-driven fit-to-width, no render cancellation, and no independent split-view panels (split view is a single flag). The bookmark model of the code (modules/patriot_signage/models/sign_bookmark.py:10) says it supports "both point clicks and lasso-style region selections", but the viewer never captures a region. The model follows the code and leaves them out.

Where two versions of a rule exist, the one Odoo runs is modelled:
- the second `EstimateLine` class in `modules/patriot_estimating/models/estimate.py` replaces the first;
- `_compute_total_hours` in the timeclock add-on overrides the one in `modules/patriot_projects/models/project.py`.

## Model

| member | source | states |
|---|---|---|
| PanelFit.SignsPerMold | modules/patriot_estimating/models/estimate.py:683-685 | signs per mold is at least 1, at least either orientation's grid count, and equal to one of them or to 1 |
| PanelFit.SignsPerMoldSymmetric | sale_order_line.py:110-112 | swapping width and height does not change signs per mold |
| PanelFit.SignsPerMoldArea | modules/patriot_estimating/models/estimate.py:683-685 | when more than one sign fits, the signs on a mold never cover more area than the 13×19 press |
| PanelFit.FitArea | sale_order_line.py:110-111 | a grid layout in one orientation never covers more than the press area |
| PanelFit.Cover | modules/patriot_estimating/models/estimate.py:697 | the ceiling of quantity over signs per mold: the unique count k with (k−1)·n < q ≤ k·n, at least 1 for a positive quantity |
| PanelFit.PlanBatch | modules/patriot_estimating/models/estimate.py:697-702 | molds cover the quantity with one mold fewer falling short, produced = molds × per mold ≥ qty, and the stock left over lies in [0, per mold) |
| EstimateLines.ComputeBatchSize | modules/patriot_estimating/models/estimate.py:672-702 | without both dimensions only signs-per-mold is reset to 1; otherwise signs per mold is the best 13×19 orientation, the molds are the fewest that cover the quantity (produced ≥ qty, one mold fewer would not), and the surplus lies in [0, signs per mold) |
| EstimateLines.ComputeMaterialUsage | modules/patriot_estimating/models/estimate.py:705-739 | zero molds give 0 sheets and 0 waste; otherwise sheets × 17 = molds, and the waste is the uncovered share of the sheet area: non-negative exactly when the signs fit the sheets, at most 100 exactly when the sign area is non-negative |
| EstimateLines.WasteShare | modules/patriot_estimating/models/estimate.py:730-735 | the waste percentage times the total area is the unused area times 100, and lies in [0,100] exactly when 0 ≤ used ≤ total |
| EstimateLines.ComputeCosts | modules/patriot_estimating/models/estimate.py:742-802 | a line without dynamic costing is untouched; otherwise unit material and labour costs times the divisor (signs produced, else quantity, else 1) are the batch costs, a zero quantity keeps the old unit costs, overhead is the company percentage of their sum and the total is all three |
| EstimateLines.SizePriceMonotone | modules/patriot_estimating/models/estimate.py:804-835 | the size price never decreases as the area grows, as the method's documentation promises |
| EstimateLines.SizePriceReference | modules/patriot_estimating/models/estimate.py:804-835 | the size price is $55 at 36 sq in and rounds to $65 at 64 sq in |
| EstimateLines.SizePrice | modules/patriot_estimating/models/estimate.py:804-835 | the size price is never below $35 |
| EstimateLines.ComputeSellPrice | modules/patriot_estimating/models/estimate.py:838-861 | only a dynamically costed line with a non-zero unit cost is priced, at a multiple of 5 within 2.5 of max(1.15·cost, size price), hence ≥ 35; every other line gets 0; no other field changes |
| EstimateLines.ComputeExtended | modules/patriot_estimating/models/estimate.py:864-877 | line total, material and labour extended are quantity times the unit amounts; install extended is 0 without install hours and hours × rate otherwise |
| EstimateLines.ExtendedGrossProfit | modules/patriot_estimating/models/estimate.py:864-877 | the line total less extended material and labour is the quantity times the per-unit gross profit |
| EstimateLines.ComputeMargin | modules/patriot_estimating/models/estimate.py:880-886 | break-even is the total unit cost; margin is 0 for an unpriced line and otherwise satisfies margin × price = (price − cost) × 100 |
| EstimateLines.MarginBreakEven | modules/patriot_estimating/models/estimate.py:880-886 | for a positive price the margin is non-negative iff the price covers break-even, and below 100% iff the cost is positive |
| EstimateLines.RecomputedLine | modules/patriot_estimating/models/estimate.py:672-886 | after the whole line engine runs on a costed line with both dimensions: signs per mold ≥ 1, 0 ≤ stock < signs per mold, produced ≥ quantity, and a non-zero cost gives a $5-multiple price ≥ 35 while a zero cost leaves price and margin 0 |
| Estimates.ComputeShopLabor | modules/patriot_estimating/models/estimate.py:256-261 | total molds are the lines' molds summed and the shop labour is those molds' mold time at the shop rate; nothing else changes |
| Estimates.ShopMoldsAppend | modules/patriot_estimating/models/estimate.py:256-261 | adding a line adds exactly its molds to the estimate's mold count |
| Estimates.TravelCost | modules/patriot_estimating/models/estimate.py:264-267 | no trips cost nothing and one trip costs a round trip, 2 × miles × rate |
| Estimates.TravelPerTrip | modules/patriot_estimating/models/estimate.py:264-267 | travel is additive in the number of trips |
| Estimates.ComputeTravel | modules/patriot_estimating/models/estimate.py:264-267 | only the travel total changes, to the round-trip cost of the trips |
| Estimates.ComputeInstall | modules/patriot_estimating/models/estimate.py:270-273 | install total is hours × crew rate, hence 0 when either is 0 |
| Estimates.ComputeEquipment | modules/patriot_estimating/models/estimate.py:276-285 | equipment is 0 unless equipment is needed, and then days × daily rate plus delivery |
| Estimates.ComputeTotals | modules/patriot_estimating/models/estimate.py:290-348 | signage is the sum of line totals; subtotal adds install, travel and equipment (not shop labour); total equals subtotal; profit is 40% of signage; the margin is 0 for a zero total and otherwise profit as a percentage of total |
| Estimates.TotalIgnoresShopLabor | modules/patriot_estimating/models/estimate.py:312-314 | changing the mold time or the shop rate never changes the estimate total |
| Estimates.SignageOnlyMargin | modules/patriot_estimating/models/estimate.py:343-346 | an estimate with no install, travel or equipment and non-zero signage has exactly a 40% margin |
| Estimates.TotalAppendLine | modules/patriot_estimating/models/estimate.py:290-337 | adding a line adds exactly its line total to the recomputed estimate total |
| SaleOrderLines.CeilAsWrittenFallsShort | sale_order_line.py:115-116 | the source's ceiling idiom gives 1 mold for 1.5 signs at one sign per mold, which covers fewer signs than ordered |
| SaleOrderLines.CeilAsWrittenWhole | sale_order_line.py:115-116 | for whole quantities the idiom equals the true ceiling |
| SaleOrderLines.EffectiveWindowHeight | sale_order_line.py:56-59 | the window height counts as 0 unless the line is windowed |
| SaleOrderLines.WindowAreaPerSign | sale_order_line.py:104 | the window area per sign is width × window height when windowed with a positive window height and 0 otherwise; for a positive width it is positive exactly then |
| SaleOrderLines.PioniteAreaPerSign | sale_order_line.py:105 | the pionite area per sign is max(W·H − window area, 0): non-negative, at least the difference, and equal to 0 or to it |
| SaleOrderLines.ComputeLayout | sale_order_line.py:110-137 | corrected layout: signs per mold is the better orientation (≥ 1); molds, sheets and window sheets are the true ceilings that cover the quantity (each ≥ 1 for a positive quantity), sheets holding 17 molds; without a window both window counts are 0 |
| SaleOrderLines.CeilAsWrittenNear | sale_order_line.py:126-127 | the source's ceiling idiom is never above the true ceiling and at most one below it |
| SaleOrderLines.ComputeLayoutAsWritten | sale_order_line.py:115-133 | the code's own layout keeps the corrected per-mold, per-sheet and window-per-sheet counts, and each of its mold, sheet and window-sheet counts is the corrected count or one less |
| SaleOrderLines.LayoutAsWrittenWhole | sale_order_line.py:126-133 | for a whole number of signs the code's layout is exactly the corrected one |
| SaleOrderLines.SheetsAsWrittenFallShort | sale_order_line.py:126-127 | a sign that fills a mold alone, ordered 17.5: the code buys 1 sheet where 2 are needed; ordered 0.5: it buys no sheet |
| SaleOrderLines.Clamp01 | sale_order_line.py:146 | the clamp lands in [0,1] and leaves values already there unchanged |
| SaleOrderLines.WasteFraction | sale_order_line.py:142-146 | a waste fraction lies in [0,1], is 0 when there is no sheet area, and is 1 − used/total when the usage fits |
| SaleOrderLines.SubstrateSheetCost | sale_order_line.py:180-186 | substrate sheets cost 130 for ABS 3/16 and 80 for other ABS (an unset variant counts as ABS), and 110 for any other variant |
| SaleOrderLines.ComputeUsage | sale_order_line.py:140-175 | pionite and substrate usage are quantity × their per-sign areas, window usage and waste are 0 without window sheets, and every waste fraction lies in [0,1] |
| Arith.Share | sale_order_line.py:220-222 | the per-sign share times the quantity is the line total |
| SaleOrderLines.MarginPercent | sale_order_line.py:240-247 | an unpriced line has margin 0; otherwise margin × price = (price − per-sign cost with overhead) × 100 |
| SaleOrderLines.PriceLayout | sale_order_line.py:178-251 | component costs are sheets × sheet costs, materials are the eight components, labour is 40 or 100 per mold, each total is materials plus its labour, per-sign costs times quantity give the totals, and the unit price is 2.76 × the worst-case total |
| SaleOrderLines.ComputePricing | sale_order_line.py:43-54 | corrected compute: nothing is written exactly for a non-panel product or W, H or Q ≤ 0; otherwise the pricing is the corrected layout's usage and price |
| SaleOrderLines.ComputePricingAsWritten | sale_order_line.py:43-54 | the compute as the code runs it writes nothing in the same cases, and otherwise prices the code's own layout |
| SaleOrderLines.PricingAsWrittenWhole | sale_order_line.py:115-137 | for a whole number of signs the code's pricing equals the corrected pricing |
| SaleOrderLines.WastePercentBounds | sale_order_line.py:146-175 | every stored waste percentage lies in [0,100] |
| SaleOrderLines.PioniteWithinSubstrate | sale_order_line.py:105-107 | the pionite used never exceeds the substrate used |
| SaleOrderLines.BestWithinWorst | sale_order_line.py:210-216 | the best-case total never exceeds the worst-case total |
| SaleOrderLines.PriceIsForWholeLine | sale_order_line.py:231-251 | the unit price is 2.4 × 1.15 × the whole line's worst-case cost, not divided by the quantity |
| PanelPricing.NegCeilIsCover | modules/patriot_panel_pricing/models/sale_order_line.py:55 | the negated floor division −(−q // n) is exactly the fewest whole molds covering q |
| PanelPricing.SubstrateSheetCost | modules/patriot_panel_pricing/models/sale_order_line.py:62-70 | the substrate sheet cost is the ABS 3/16 parameter for ABS 3/16, the ABS 1/8 parameter for other ABS, and the acrylic parameter otherwise |
| PanelPricing.WindowTotal | modules/patriot_panel_pricing/models/sale_order_line.py:76-80 | the window cost is non-zero only for a windowed line with a positive window height, and then sheets × window sheet cost |
| PanelPricing.Consumables | modules/patriot_panel_pricing/models/sale_order_line.py:82-89 | consumables are ink, paint and hot stamp per sign plus tape and mold lube per mold |
| PanelPricing.ConsumablesAdd | modules/patriot_panel_pricing/models/sale_order_line.py:82-89 | two orders together need the consumables of each, for their quantities and molds combined |
| PanelPricing.ComputeLayout | modules/patriot_panel_pricing/models/sale_order_line.py:50-60 | signs per mold is the better orientation on the configured press, molds cover the quantity, signs per sheet is signs per mold × molds per sheet, and with at least one mold per sheet the sheets cover the quantity |
| PanelPricing.PriceLayout | modules/patriot_panel_pricing/models/sale_order_line.py:72-114 | materials are pionite, substrate, window and consumables; labour is the worst-case rate per mold; the final price is (total + total·overhead)·markup and the unit price spreads it over the quantity |
| PanelPricing.WindowShare | modules/patriot_panel_pricing/models/sale_order_line.py:76-91 | a window adds exactly its lens sheets to the materials, and a window of no height adds nothing |
| PanelPricing.WastePercent | modules/patriot_panel_pricing/models/sale_order_line.py:116 | the waste percentage times the sheet area is the unused area times 100 |
| PanelPricing.WriteQuote | modules/patriot_panel_pricing/models/sale_order_line.py:106-116 | only price, material and labour costs, signs per sheet and the waste are written, and the waste only when the sheet area is positive |
| PanelPricing.WriteQuoteIdempotent | modules/patriot_panel_pricing/models/sale_order_line.py:106-116 | writing a quote twice is writing it once, and whether the compute applies to the line is unchanged by it |
| PanelPricing.ComputePanelPrice | modules/patriot_panel_pricing/models/sale_order_line.py:33-47 | a non-panel line, a missing params record or a non-positive W, H or qty leaves the line unchanged; zero molds per sheet is the division error; otherwise the quote's unit price, costs, signs per sheet and waste are written |
| PanelPricing.PanelPriceTimesQty | modules/patriot_panel_pricing/models/sale_order_line.py:104-116 | once the compute applies, the written unit price times the quantity is the marked-up line cost |
| PanelPricing.PanelPriceIdempotent | modules/patriot_panel_pricing/models/sale_order_line.py:33-116 | recomputing a priced line changes nothing |
| PanelPricing.StockBelowOneMold | modules/patriot_panel_pricing/models/sale_order_line.py:51-55 | signs per mold and molds are at least 1, the molds produce at least the quantity, and the surplus is less than one mold |
| PanelPricing.SheetsHoldMolds | modules/patriot_panel_pricing/models/sale_order_line.py:55-60 | the sheets bought hold every mold needed |
| MrpRewrite.MapOf | modules/patriot_panel_pricing/models/mrp_production.py:51-63 | a dictionary literal's keys are exactly the keys listed |
| MrpRewrite.MapOfLast | modules/patriot_panel_pricing/models/mrp_production.py:51-63 | a key holds the value of its last listing in the literal |
| MrpRewrite.ComponentPairs | modules/patriot_panel_pricing/models/mrp_production.py:51-63 | the component map lists ten products; the ABS 1/8 product gets the ABS usage only for one-eighth lines, the 3/16 product only for three-sixteenths lines, and acrylic its own usage |
| MrpRewrite.SubstrateByThickness | modules/patriot_panel_pricing/models/mrp_production.py:59-62 | with ten different products, the map gives each substrate product the usage its thickness selects (0 otherwise) and pionite its usage |
| MrpRewrite.NewQty | modules/patriot_panel_pricing/models/mrp_production.py:70-77 | a mapped move's quantity is the usage when positive and 0 otherwise, never negative |
| MrpRewrite.RewriteMoves | modules/patriot_panel_pricing/models/mrp_production.py:67-77 | every raw move whose product is mapped gets the new quantity and every other move is kept unchanged; the number of moves is kept |
| MrpRewrite.RewriteMovesIdempotent | modules/patriot_panel_pricing/models/mrp_production.py:67-77 | rewriting the moves twice is rewriting them once |
| MrpRewrite.Matching | modules/patriot_panel_pricing/models/mrp_production.py:28-31 | the search finds exactly the sale lines of the production's procurement group and product |
| MrpRewrite.MatchingFirst | modules/patriot_panel_pricing/models/mrp_production.py:37 | the line used is the first matching sale line |
| MrpRewrite.RewriteProduction | modules/patriot_panel_pricing/models/mrp_production.py:10-77 | a production without a procurement group, matching line, panel-sign first line or params is untouched; otherwise its raw moves are rewritten from the first matching line's component map |
| MrpRewrite.OnlyFirstLineUsed | modules/patriot_panel_pricing/models/mrp_production.py:36-37 | further matching sale lines after the first never change the result |
| MrpRewrite.MatchingPrefix | modules/patriot_panel_pricing/models/mrp_production.py:28-37 | appending sale lines keeps the first match |
| MrpRewrite.RewriteAll | modules/patriot_panel_pricing/models/mrp_production.py:7-83 | every created production is rewritten on its own |
| SignTypes.DimensionsDisplayAsWritten | modules/patriot_signage/models/sign_type.py:392-394 | as written, a round sign's label starts with the two characters "Ã˜" instead of the diameter sign; every other label is the corrected one |
| SignTypes.GarbledRoundLabel | modules/patriot_signage/models/sign_type.py:394 | for every round sign with a diameter the as-written label starts with 'Ã' where the intended label starts with 'Ø', so the two differ |
| SignTypes.GarbledTwelveInch | modules/patriot_signage/models/sign_type.py:394 | a 12-inch round sign is labelled "Ã˜ 12\"" as written and "Ø 12\"" as intended |
| SignTypes.DimensionsDisplay | modules/patriot_signage/models/sign_type.py:389-400 | a round sign with a diameter gets the diameter label; otherwise length and width give `L" x W"`; the label is empty exactly when neither applies |
| SignTypes.WholeDisplay | modules/patriot_signage/models/sign_type.py:396-398 | whole-number sides print without decimals |
| SignTypes.ExtendedPrice | modules/patriot_signage/models/sign_type.py:423-426 | the extended price is 0 for no quantity or no price and the unit price for one sign |
| SignTypes.ExtendedPriceAdditive | modules/patriot_signage/models/sign_type.py:423-426 | the extended price is additive in the quantity |
| SignTypes.AutoPerMold | modules/patriot_signage/models/sign_type.py:506-510 | signs per mold is at least 1, and the better press orientation when both sides are positive |
| SignTypes.AutoQuote | modules/patriot_signage/models/sign_type.py:506-544 | a zero quantity counts as one; molds are the fewest covering the quantity; sheets × 17 = molds; per-unit material and labour spread the totals; overhead adds 15%; the price is a multiple of 5 within 2.5 of the marked-up cost |
| SignTypes.AutoPrice | modules/patriot_signage/models/sign_type.py:470-544 | nothing changes when length or width is missing; otherwise only unit cost and unit price are written, from the quote |
| SignTypes.AutoPriceRounded | modules/patriot_signage/models/sign_type.py:538-544 | the auto-computed unit price is a multiple of $5 within 2.5 of the marked-up unit cost, and no other field changes |
| SignTypes.AutoPriceIdempotent | modules/patriot_signage/models/sign_type.py:470-544 | running the auto-price twice is running it once |
| SignTypes.AutoPriceZeroQuantity | modules/patriot_signage/models/sign_type.py:512 | a zero quantity is priced as a quantity of one |
| SignTypes.OnIsAda | modules/patriot_signage/models/sign_type.py:462-467 | checking ADA turns tactile and braille on, and leaves an unchecked sign type alone |
| SignTypes.OnIsAdaKeepsComplete | modules/patriot_signage/models/sign_type.py:462-467 | a sign type whose ADA flags are already complete is unchanged |
| SignTypes.OnCategory | modules/patriot_signage/models/sign_type.py:441-448 | an ADA-default category sets ADA, tactile and braille; any other category or none changes nothing |
| SignTypes.OnSubtype | modules/patriot_signage/models/sign_type.py:450-460 | a subtype can only switch ADA, window and illumination on; an illuminated-default subtype sets the illumination to internal; nothing else changes |
| SignTypes.AdaSubtypeCompletes | modules/patriot_signage/models/sign_type.py:451-467 | an ADA subtype followed by the ADA onchange leaves ADA, tactile and braille all on |
| SignTypes.OnDimension | modules/patriot_signage/models/sign_type.py:432-439 | a chosen dimension sets length from its width and width from its height, and the depth only when it has one |
| SignTypes.OnTemplate | modules/patriot_signage/models/sign_type.py:51-64 | a template copies category, sides, price and ADA, fills the name only when empty, and counts one more use |
| SignTypes.OnTemplateTwice | modules/patriot_signage/models/sign_type.py:51-64 | applying a template twice changes no copied field the second time but counts two uses |
| SignTypes.Confirm | modules/patriot_signage/models/sign_type.py:549-551 | confirming sets the state and the confirmed flag and nothing else |
| SignTypes.Insert | modules/patriot_signage/models/sign_type.py:379-383 | an insertion is rejected exactly when its (opportunity, name) pair is taken, and appended otherwise |
| SignTypes.InsertKeepsUnique | modules/patriot_signage/models/sign_type.py:379-383 | (opportunity, name) pairs stay unique after every accepted insertion |
| SignTypes.SameNameOtherOpportunity | modules/patriot_signage/models/sign_type.py:379-383 | the same name under another opportunity is accepted |
| SignDimensions.Name | modules/patriot_base/models/sign_dimension.py:103-118 | width and height give "W x H", with " x D" added when there is a depth; otherwise a diameter gives the diameter form; otherwise "Undefined" |
| SignDimensions.WholeName | modules/patriot_base/models/sign_dimension.py:107-108 | whole-number sides print without decimals |
| SignDimensions.SquareInches | modules/patriot_base/models/sign_dimension.py:121-130 | a round-capable dimension with a diameter has the circle's area; otherwise width × height when both are set, else 0 |
| SignDimensions.RoundAreaIgnoresBox | modules/patriot_base/models/sign_dimension.py:124-126 | a round dimension's area does not depend on its width or height |
| SignDimensions.InchDisplay | modules/patriot_base/models/sign_dimension.py:135-140 | the inch display is empty exactly when width or height is missing |
| SignDimensions.FeetInches | modules/patriot_base/models/sign_dimension.py:145-154 | every feet-inch label ends with the inch mark |
| SignDimensions.FeetInchesWhole | modules/patriot_base/models/sign_dimension.py:145-154 | a whole number of inches prints as F'-R" from a foot up and as R" below |
| SignDimensions.FeetInchesRoundTrip | modules/patriot_base/models/sign_dimension.py:145-154 | reading a feet-inch label of whole inches back gives the inches |
| SignDimensions.ParseFeetLabel | modules/patriot_base/models/sign_dimension.py:148-151 | a label F'-R" reads back as 12·F + R |
| SignDimensions.ParseInchLabel | modules/patriot_base/models/sign_dimension.py:152-154 | a label R" under a foot reads back as R |
| SignDimensions.FeetInchDisplay | modules/patriot_base/models/sign_dimension.py:142-158 | the feet-inch display is empty exactly when width or height is missing |
| SignDimensions.DiameterDisplay | modules/patriot_base/models/sign_dimension.py:160-164 | the diameter display is empty exactly without a diameter, and starts with the diameter sign otherwise |
| SignDimensions.FindActive | modules/patriot_base/models/sign_dimension.py:175-179 | the search returns the first active record of that size, or none when no active record has it |
| SignDimensions.FindOrCreate | modules/patriot_base/models/sign_dimension.py:173-188 | an active match is returned with nothing created; otherwise a new active record of that size is appended; creation fails exactly when only an archived record has the size (the uniqueness constraint) |
| SignDimensions.FindOrCreateKeepsUnique | modules/patriot_base/models/sign_dimension.py:95-99 | find-or-create keeps every (width, height, depth) triple unique |
| SignDimensions.FindOrCreateIdempotent | modules/patriot_base/models/sign_dimension.py:173-188 | a second find-or-create of the same size returns the same record and creates nothing |
| PayApplications.ComputeCompleted | modules/patriot_billing/models/pay_application.py:333-342 | G703 columns: completed to date is previous + work + materials (G = D + E + F), balance plus completed is the scheduled value (H = C − G), and the percentage is completed over scheduled (0 for a zero scheduled value) |
| PayApplications.FinishedIffNoBalance | modules/patriot_billing/models/pay_application.py:336-342 | a line with a scheduled value is 100% complete exactly when nothing is left to finish |
| PayApplications.ComputeName | modules/patriot_billing/models/pay_application.py:175-180 | "Project - App #n" when the project and a non-zero number are set, else "Application #n" with 0 for no number |
| PayApplications.NamesDistinguishNumbers | modules/patriot_billing/models/pay_application.py:177-178 | two applications of the same project with the same name have the same number |
| Arith.Percent | modules/patriot_billing/models/pay_application.py:199-202 | the percentage times a non-zero whole is the part times 100; a zero whole gives 0 |
| PayApplications.RetainageOf | modules/patriot_billing/models/pay_application.py:204 | the retainage times 100 is the total times the retainage percentage |
| PayApplications.ComputeTotals | modules/patriot_billing/models/pay_application.py:185-207 | G702 lines: original is the non-change-order scheduled values, change orders the others, revised their sum; this period is work plus materials; percent complete of the revised contract, retainage of the total completed at the application's percentage, and payment due = completed − retainage − previous |
| PayApplications.RevisedIsAllScheduled | modules/patriot_billing/models/pay_application.py:189-191 | the revised contract is the scheduled value of all lines |
| PayApplications.TotalsAgreeWithLines | modules/patriot_billing/models/pay_application.py:185-207 | when every line is computed, total completed is previous plus this period and the lines' balances add up to revised − completed |
| PayApplications.ComputePrevious | modules/patriot_billing/models/pay_application.py:210-218 | previous applications is the payment due summed over the earlier certified (approved, invoiced, paid) applications of the same project |
| PayApplications.PreviousIgnoresOthers | modules/patriot_billing/models/pay_application.py:213-216 | an application of another project, a later number or an uncertified state adds nothing |
| PayApplications.PreviousAddsCertified | modules/patriot_billing/models/pay_application.py:213-218 | an earlier certified application of the project adds exactly its payment due |
| PayApplications.Submit | modules/patriot_billing/models/pay_application.py:223-228 | submitting sets the state and the submitted date and nothing else |
| PayApplications.Approve | modules/patriot_billing/models/pay_application.py:230-235 | approving sets the state and the approved date and nothing else |
| PayApplications.SubmitApproveFacts | modules/patriot_billing/models/pay_application.py:223-235 | submitting and approving are idempotent and keep the lines and the payment due; an approved application counts toward every later application of its project, a merely submitted one toward none |
| PayApplications.CreateInvoice | modules/patriot_billing/models/pay_application.py:237-256 | the invoice bills the general contractor today, one unit at the payment due, named after the application and project, and the application is invoiced and linked to it |
| PayApplications.InvoicedCountsForLater | modules/patriot_billing/models/pay_application.py:210-256 | an invoiced application counts towards every later application of its project |
| Contracts.NewContract | modules/patriot_projects/models/contract.py:77-80 | a new contract has the default retainage of 10% |
| Contracts.ComputeRevised | modules/patriot_projects/models/contract.py:135-138 | revised amount = contract amount + change order total |
| Contracts.ComputeRetainage | modules/patriot_projects/models/contract.py:140-143 | retainage × 100 = revised amount × retainage percent |
| Contracts.NoChangeOrders | modules/patriot_projects/models/contract.py:136-148 | without change orders the revised amount is the contract amount |
| Contracts.ChangeOrderStateIgnored | modules/patriot_projects/models/contract.py:145-148 | changing a change order's state never changes the revised amount |
| Contracts.AddChangeOrder | modules/patriot_projects/models/contract.py:136-148 | adding a change order raises the revised amount by exactly its amount |
| Contracts.DefaultRetainageIsTenth | modules/patriot_projects/models/contract.py:77-80 | with the default percentage the retainage is a tenth of the revised amount |
| Schedules.ComputeName | modules/patriot_billing/models/sov.py:54-56 | "SOV - project" when a project is set, "New SOV" otherwise |
| Schedules.NamedSchedulesAreNotNew | modules/patriot_billing/models/sov.py:54-56 | a schedule with a project is never called "New SOV" |
| Schedules.NewLines | modules/patriot_billing/models/sov.py:68-78 | one line per sign type, in order, with sequences 10, 20, …, the sign type's extended price as scheduled value and "name - category" as description |
| Schedules.NewLinesValue | modules/patriot_billing/models/sov.py:68-78 | the new lines are worth exactly the sign types' extended prices |
| Schedules.Populate | modules/patriot_billing/models/sov.py:63-80 | nothing is created without an opportunity; otherwise the new lines are appended |
| Schedules.PopulateAddsValue | modules/patriot_billing/models/sov.py:63-80 | populating raises the schedule total by the sign types' extended prices |
| Schedules.ComputeBilled | modules/patriot_billing/models/sov.py:136-141 | billed to date sums completed-to-date of the pay lines referencing this line, and remaining + billed = scheduled value |
| Schedules.BilledByReference | modules/patriot_billing/models/sov.py:139-140 | a pay line of another schedule line changes nothing, and one of this line adds exactly its completed amount |
| Tasks.AssignToUser | modules/patriot_timeclock/models/project_task.py:185-197 | assigning adds the user, records who assigned and when, and moves a not-started task to assigned; any other state is kept |
| Tasks.UnassignUser | modules/patriot_timeclock/models/project_task.py:199-208 | unassigning removes the user, and an assigned task left with nobody goes back to not started |
| Tasks.AssignUnassign | modules/patriot_timeclock/models/project_task.py:185-208 | assigning then unassigning the only user restores the workers and the not-started state |
| Tasks.UnassignKeepsProgress | modules/patriot_timeclock/models/project_task.py:205-207 | unassigning never moves a task back once it is in progress, complete or verified |
| Tasks.Started | modules/patriot_timeclock/models/project_task.py:249-250 | starting work moves not-started and assigned tasks to in progress and keeps every other state |
| Tasks.StartWork | modules/patriot_timeclock/models/project_task.py:214-256 | no employee, or a user not among a task's assigned workers, is refused; otherwise the employee's open punch is closed, a punch on this task noting "Started: name" is opened, and the work state advances |
| Tasks.StartWorkOpensTaskPunch | modules/patriot_timeclock/models/project_task.py:233-247 | after starting work the employee has exactly one open punch, and it is on this task |
| Tasks.OpenOnTaskIndex | modules/patriot_timeclock/models/project_task.py:282-286 | the search finds an open punch of the employee on the task, or none exists |
| Tasks.MarkComplete | modules/patriot_timeclock/models/project_task.py:270-292 | the task becomes complete; the employee's open punch on the task, if any, is clocked out; without an employee no punch changes |
| Tasks.CompleteLeavesNoOpenPunch | modules/patriot_timeclock/models/project_task.py:281-289 | after marking complete the employee has no open punch on the task |
| Tasks.Verify | modules/patriot_timeclock/models/project_task.py:294-314 | only a complete task can be verified, and it then records verified, the verifier and the date |
| Tasks.VerifyOnce | modules/patriot_timeclock/models/project_task.py:301-302 | a verified task cannot be verified again |
| Tasks.Barcode | modules/patriot_timeclock/models/project_task.py:153-159 | a task with an id and a project has the barcode "TASK-project-id", and no barcode otherwise |
| Tasks.BarcodeInjective | modules/patriot_timeclock/models/project_task.py:153-159 | two tasks with positive ids and projects have equal barcodes only when both numbers agree |
| Tasks.FindBarcode | modules/patriot_timeclock/models/project_task.py:392 | the search returns the first task with that barcode, or none |
| Tasks.ScanBarcode | modules/patriot_timeclock/models/project_task.py:387-410 | an unknown barcode answers "No task found with barcode: …"; a known one starts work on its task and answers switched, failing exactly when starting fails |
| Tasks.ScanFindsOwnTask | modules/patriot_timeclock/models/project_task.py:387-410 | among tasks with distinct ids, scanning a task's own barcode finds that task |
| Tasks.ClockOutAddsHours | modules/patriot_timeclock/models/project_task.py:135-138 | clocking out a punch on the task adds its hours to the task's actual hours, and a punch on another task adds nothing |
| Tasks.InsertPermutes | modules/patriot_timeclock/models/project_task.py:335 | inserting into the queue order adds exactly the one task |
| Tasks.InsertSorted | modules/patriot_timeclock/models/project_task.py:335 | inserting keeps the order `priority_sequence, id` |
| Tasks.SortTasksSorts | modules/patriot_timeclock/models/project_task.py:335 | the sort is a permutation ordered by priority, then id |
| Tasks.ActiveTask | modules/patriot_timeclock/models/project_task.py:337-340 | the active task is the task of the employee's open punch, when it has one |
| Tasks.Items | modules/patriot_timeclock/models/project_task.py:342-355 | one queue entry per task, in order, marked active exactly for the active task |
| Tasks.WorkQueue | modules/patriot_timeclock/models/project_task.py:317-356 | no employee gives an empty queue; otherwise the queued tasks sorted, with the active one marked |
| Tasks.WorkQueueOrder | modules/patriot_timeclock/models/project_task.py:317-356 | the queue holds as many entries as the user's assigned or in-progress tasks, ordered by priority then id, with active marking only the active task |
| Tasks.WorkQueueHasAll | modules/patriot_timeclock/models/project_task.py:329-335 | every task assigned to the user that is assigned or in progress appears in the queue |
| Tasks.WorkQueueOnlyQueued | modules/patriot_timeclock/models/project_task.py:329-335 | every queue entry is such a task |
| TimePunches.DurationHours | modules/patriot_timeclock/models/time_punch.py:101-109 | no punch-in gives 0 hours; otherwise hours × 3600 is the seconds from punch-in to punch-out, or to now while open |
| TimePunches.HoursMinutes | modules/patriot_timeclock/models/time_punch.py:118-119 | hours are the truncated total and minutes the truncated remaining fraction × 60 |
| TimePunches.HoursMinutesBounds | modules/patriot_timeclock/models/time_punch.py:118-119 | for a non-negative duration minutes lie in [0,60) and hours·60 + minutes is the whole number of minutes elapsed |
| TimePunches.HoursMinutesWhole | modules/patriot_timeclock/models/time_punch.py:118-119 | h hours and m minutes display back as (h, m) |
| TimePunches.DurationDisplay | modules/patriot_timeclock/models/time_punch.py:112-123 | without a punch-in the display is "0h 0m", otherwise "Xh Ym" of the duration |
| TimePunches.ZeroDisplay | modules/patriot_timeclock/models/time_punch.py:123 | zero hours display as "0h 0m" |
| TimePunches.DisplayWhole | modules/patriot_timeclock/models/time_punch.py:112-123 | a punch that has run h hours and m minutes shows "{h}h {m}m" |
| TimePunches.CreateTimesheet | modules/patriot_timeclock/models/time_punch.py:142-159 | an open punch creates nothing; a closed one books its hours on its project, task and employee, dated the punch-in day, named by its notes or "Time punch: project", and links the entry |
| TimePunches.TimesheetBooksSpan | modules/patriot_timeclock/models/time_punch.py:142-159 | the entry books exactly the span from clock-in to clock-out; creating it again books the hours a second time and relinks the punch, as nothing checks for an existing entry |
| TimePunches.ClockOut | modules/patriot_timeclock/models/time_punch.py:125-140 | a closed punch is refused; an active one closes now with hours from punch-in to now and books them on a new timesheet |
| TimePunches.ClockOutOnce | modules/patriot_timeclock/models/time_punch.py:129-130 | a punch cannot be clocked out twice |
| TimePunches.ActivePunch | modules/patriot_timeclock/models/time_punch.py:162-170 | the search returns the employee's first active punch, or none when none is active |
| TimePunches.ActiveCountNone | modules/patriot_timeclock/models/time_punch.py:162-170 | the employee has no active punch exactly when the search finds none |
| TimePunches.CloseCount | modules/patriot_timeclock/models/time_punch.py:131-134 | closing a punch lowers its employee's active count by one when it was active, and no other employee's |
| TimePunches.AppendCount | modules/patriot_timeclock/models/time_punch.py:7-98 | a new punch adds one to its employee's active count exactly when it is active |
| TimePunches.ClockOutAt | modules/patriot_timeclock/models/time_punch.py:125-159 | clocking out a stored punch replaces it by its closed form and appends its timesheet, failing exactly when the punch cannot be clocked out |
| TimePunches.ClockOutAtCount | modules/patriot_timeclock/models/time_punch.py:125-140 | clocking out lowers exactly the punch's employee's active count by one |
| TimePunches.AdminAdjust | modules/patriot_timeclock/models/time_punch.py:172-197 | only administrators may adjust; the adjuster and reason (default "Manual adjustment") are recorded, given times replace the old ones, a new punch-out closes the punch; the entry is re-made exactly when one existed and a punch-out was given, and then the old entry is unlinked and the new one books the adjusted span and is linked; it fails exactly for a non-administrator or for re-making an entry of a punch with no clock-in |
| TimePunches.AdminAdjustBooksSpan | modules/patriot_timeclock/models/time_punch.py:186-195 | an administrator giving both times to a punch with an entry closes it, unlinks the old entry, and books a new one whose hours × 3600 are the seconds between the new clock-in and clock-out |
| Kiosk.ComputeStatus | modules/patriot_timeclock/models/time_clock_kiosk.py:62-70 | the kiosk is clocked in exactly when the employee has an active punch, showing its project and duration, and otherwise no project and "0h 0m" |
| Kiosk.NewPunch | modules/patriot_timeclock/models/time_clock_kiosk.py:117-123 | a new punch is active for the employee on the chosen project and task, punched in now |
| Kiosk.Switch | modules/patriot_timeclock/models/time_clock_kiosk.py:112-123 | the employee's open punch, if any, is clocked out now and the new punch appended after it |
| Kiosk.SwitchKeepsOneActive | modules/patriot_timeclock/models/time_clock_kiosk.py:112-123 | closing before opening keeps at most one open punch per employee, and the new punch is the employee's active one |
| Kiosk.ClockIn | modules/patriot_timeclock/models/time_clock_kiosk.py:83-138 | no employee or no project is refused; clocking into the current project changes nothing; otherwise the open punch is switched for a new one |
| Kiosk.ClockInShowsProject | modules/patriot_timeclock/models/time_clock_kiosk.py:83-138 | after clocking in, at most one punch per employee is open and the kiosk shows the chosen project |
| Kiosk.ClockOut | modules/patriot_timeclock/models/time_clock_kiosk.py:140-154 | clocking out without an open punch is refused, and otherwise closes that punch |
| Kiosk.ClockOutShowsOut | modules/patriot_timeclock/models/time_clock_kiosk.py:140-154 | after clocking out the kiosk shows not clocked in and "0h 0m" |
| Kiosk.TakeBreak | modules/patriot_timeclock/models/time_clock_kiosk.py:156-190 | without a Break project the break is refused; otherwise the open punch is closed and a "Break" punch on the Break project opened |
| Kiosk.BreakShowsBreak | modules/patriot_timeclock/models/time_clock_kiosk.py:156-190 | during a break at most one punch per employee is open and the kiosk shows the Break project |
| Kiosk.EndBreak | modules/patriot_timeclock/models/time_clock_kiosk.py:192-210 | ending a break needs an open punch on the project named "Break", and then clocks it out |
| Kiosk.EndBreakOnce | modules/patriot_timeclock/models/time_clock_kiosk.py:192-210 | after a break ends the kiosk shows the employee clocked out, at most one open punch per employee remains, and ending the break again fails |
| Hours.ProjectHours | modules/patriot_timeclock/models/project.py:41-65 | a project's hours are its closed punches' hours plus, when it has an opportunity, the opportunity's closed punches' hours, shown as "Xh Ym"; the punch count counts every punch on the project |
| Hours.LinkedProject | modules/patriot_timeclock/models/crm_lead.py:46-51 | the linked project is the first project of the opportunity, or none |
| Hours.LeadHours | modules/patriot_timeclock/models/crm_lead.py:53-82 | bidding hours are the opportunity's closed punches' hours; the total adds the linked project's closed punches' hours when there is one; both shown as "Xh Ym" |
| Hours.LeadAndProjectAgree | modules/patriot_timeclock/models/crm_lead.py:67-77 | an opportunity's total and its linked project's total are the same number |
| Hours.ProjectHoursNonNegative | modules/patriot_timeclock/models/project.py:44-58 | with non-negative punch durations a project's hours are non-negative |
| Hours.OpenPunchNotCounted | modules/patriot_timeclock/models/project.py:46 | an open punch adds nothing to the project's hours |
| Hours.ClockOutAddsProjectHours | modules/patriot_timeclock/models/project.py:46-47 | closing a punch on the project adds exactly its duration |
| Projects.DedupFromSpec | modules/patriot_projects/models/project.py:34 | `dict.fromkeys` keeps the first occurrence of each id, in order: the result holds exactly the ids not yet seen, without repeats |
| Projects.DedupFromAppend | modules/patriot_projects/models/project.py:34 | deduplicating a concatenation deduplicates the first part and then keeps what the second adds |
| Projects.DedupFromDistinct | modules/patriot_projects/models/project.py:34 | a list without repeats is kept as it is |
| Projects.Limit | modules/patriot_projects/models/project.py:36 | a zero limit keeps everything and any other keeps the first `limit` ids |
| Projects.NameSearch | modules/patriot_projects/models/project.py:16-36 | with a name and an ilike, like or = operator the projects of matching tasks are added after the standard results without repeats; otherwise only the standard results; the limit applies last |
| Projects.NameSearchExtends | modules/patriot_projects/models/project.py:23-34 | the standard results come first, unchanged; the result is exactly the standard and the task projects, without repeats |
| Projects.SignCounts | modules/patriot_projects/models/project.py:225-233 | without an opportunity both counts are 0; otherwise the number of sign types and their summed quantities |
| Projects.ProjectOf | modules/patriot_projects/models/project.py:247 | the search finds the first project of the opportunity, or none; it is the time clock's linked-project lookup applied to the project records |
| Projects.MovePunches | modules/patriot_projects/models/project.py:289-296 | every punch of the opportunity moves to the project with its opportunity cleared, and the others are untouched |
| Projects.CreateFromOpportunity | modules/patriot_projects/models/project.py:240-298 | an existing project of the opportunity is updated in place, otherwise one is appended; a "General - Project Time" task is added only when no task of the project contains "general"; the opportunity's punches move to the project |
| Projects.GeneralTaskIsGeneral | modules/patriot_projects/models/project.py:282-287 | the task created is one the "General" search finds |
| Projects.CreateLinksProject | modules/patriot_projects/models/project.py:240-298 | afterwards the opportunity's project is the one returned, with the opportunity's details, and no punch is left on the opportunity |
| Projects.CreateTwiceAddsNothing | modules/patriot_projects/models/project.py:246-287 | creating from the same opportunity again returns the same project and adds no project and no task |
| Projects.MoveKeepsProjectHours | modules/patriot_projects/models/project.py:289-296 | moving the pre-bid punches onto the project leaves its total hours unchanged, since they were counted through the opportunity before |
| CrmLeads.TravelCost | modules/patriot_crm/models/crm_lead.py:180-183 | travel is a round trip: twice the one-way miles at the lead's mileage rate, falling back to 0.67 a mile when no rate is set |
| CrmLeads.TravelCostFacts | modules/patriot_crm/models/crm_lead.py:180-183 | an unset rate costs the same as the 0.67 default, the cost is additive in the distance, and no distance costs nothing |
| CrmLeads.IsCcOpportunity | modules/patriot_crm/models/crm_lead.py:305-307 | an opportunity counts as a ConstructConnect one exactly when it carries a non-empty ConstructConnect project id |
| CrmLeads.IngestedIsCc | modules/patriot_cc_ops/models/cc_opportunity.py:95-97 | an opportunity ingested from an invitation email is a ConstructConnect one exactly when the email carried a project id |
| CrmLeads.FindCompany | modules/patriot_crm/models/crm_lead.py:387-390 | the search returns the first company partner whose name contains the key case-insensitively, and none exactly when no company matches |
| CrmLeads.NewPartner | modules/patriot_crm/models/crm_lead.py:393-409 | a created partner is a company named with the stripped name, and exactly the flag of its role (gc, owner, architect or supplier) is set |
| CrmLeads.GetOrCreatePartnerAsWritten | modules/patriot_crm/models/crm_lead.py:370-412 | an empty name links nothing; otherwise an existing matching company is reused unchanged, else one new partner is appended |
| CrmLeads.BlankNameLinksAnyCompany | modules/patriot_crm/models/crm_lead.py:381-390 | a name of blanks passes the emptiness test, strips to the empty key, and so links the first company whatever its name |
| CrmLeads.GetOrCreatePartner | modules/patriot_crm/models/crm_lead.py:370-412 | with blank names rejected like empty ones, every other name behaves as in the original lookup-or-create |
| CrmLeads.PartnerMatchesName | modules/patriot_crm/models/crm_lead.py:370-412 | a non-blank name always yields a partner whose name matches it, and the partner list grows by at most that one new partner |
| CrmLeads.GetOrCreateTwice | modules/patriot_crm/models/crm_lead.py:370-412 | looking the same name up again finds the partner the first call returned and creates nothing |
| CrmLeads.LinkRole | modules/patriot_crm/models/crm_lead.py:419-422 | one role of the corrected create: a role is linked from its legacy name only when the name is given and no partner is set yet, through the corrected lookup; an already set partner is never replaced |
| CrmLeads.LinkPartners | modules/patriot_crm/models/crm_lead.py:415-436 | the corrected create (blank legacy names link nothing): chosen partners and roles without a legacy name are kept and the legacy names never change; each role with a non-blank legacy name and no partner is linked to a company whose name contains that name; the partners on record stay and at most three are added |
| CrmLeads.LinkRoleFacts | modules/patriot_crm/models/crm_lead.py:419-422 | one role keeps the partners on record and adds at most one, and a non-blank name with no link ends linked to a company whose name contains it |
| CrmLeads.LinkRoleLinks | modules/patriot_crm/models/crm_lead.py:419-422 | a non-blank legacy name with no partner set always ends up linked to a real partner |
| CrmLeads.FindCompanyExtends | modules/patriot_crm/models/crm_lead.py:387-390 | the first company matching a key stays the first match once partners are appended after it |
| CrmLeads.LinkRoleAsWritten | modules/patriot_crm/models/crm_lead.py:419-422 | one role of create as written: a legacy name of blanks with no partner links the first company on file, or a new blank-named company when there is none; otherwise as the corrected role; at most one partner is added |
| CrmLeads.LinkPartnersAsWritten | modules/patriot_crm/models/crm_lead.py:414-436 | create as written: chosen partners and roles without a legacy name are kept; each role whose legacy name is only blanks and has no partner is linked to the first company on file; the partners on record stay and at most three are added |
| CrmLeads.TidyNamesAgree | modules/patriot_crm/models/crm_lead.py:414-436 | when no legacy name is made only of blanks, create as written and the corrected create give the same links and partners |
| CrmLeads.BlankLegacyNameLinksAnyCompany | modules/patriot_crm/models/crm_lead.py:419-422 | a witness: a contractor name "  " with one company on file links that company as written and links nothing in the corrected create |
| CrmLeads.CreateProjectFromWon | modules/patriot_crm/models/crm_lead.py:460-519 | corrected guard (the add-on is installed): winning reuses the opportunity's existing project and creates nothing; otherwise it creates the project, a draft "Shop Drawings" submittal for section 10 14 00 with the opportunity's sign types, and a draft "PO-" production order, each exactly when its add-on is installed |
| CrmLeads.CreateProjectFromWonAsWritten | modules/patriot_crm/models/crm_lead.py:484-510 | as written, winning behaves as the corrected method with neither add-on installed: the project is created and no submittal or production order, whatever is installed |
| CrmLeads.WonAsWrittenCreatesNeither | modules/patriot_crm/models/crm_lead.py:470-481 | for a new opportunity with both add-ons installed the corrected method creates a submittal and a production order, the code as written neither, and both create the same project |
| CrmLeads.WonTwice | modules/patriot_crm/models/crm_lead.py:460-481 | marking the same opportunity won a second time changes nothing and returns the same project |
| LeadProfit.SignCounts | modules/patriot_signage/models/crm_lead.py:124-128 | the opportunity counts one sign type per line and as many signs as the lines' quantities add up to |
| LeadProfit.SignCountsAppend | modules/patriot_signage/models/crm_lead.py:124-128 | adding a sign type raises the type count by one and the sign count by that type's quantity |
| LeadProfit.LineCost | modules/patriot_signage/models/crm_lead.py:154-156 | a timesheet line costs its hours at the employee's hourly cost, and nothing when it has no employee or the employee has no cost |
| LeadProfit.TimesheetTotals | modules/patriot_signage/models/crm_lead.py:130-166 | hours and cost come only from the timesheet lines of the opportunity's project, and are zero when projects carry no opportunity link or the opportunity has no project |
| LeadProfit.TimesheetCostNonNegative | modules/patriot_signage/models/crm_lead.py:130-166 | with non-negative hours and hourly costs neither the timesheet hours nor the timesheet cost can be negative |
| LeadProfit.UnstaffedLineCostsNothing | modules/patriot_signage/models/crm_lead.py:149-157 | a project timesheet line without an employee adds its hours to the hours but nothing to the cost |
| LeadProfit.Profit | modules/patriot_signage/models/crm_lead.py:177-231 | the bid bills signs, shop hours at $75, install hours at the installer rate (default $40), travel and equipment; the cost counts sign costs, actual timesheet cost, travel and equipment; profit is their difference and the margin its percentage of the bid |
| LeadProfit.PassThroughCancels | modules/patriot_signage/models/crm_lead.py:207-226 | travel and equipment appear on both sides and never change the profit, which is sign margin plus billed labour less actual labour cost |
| LeadProfit.ProfitEdgeCases | modules/patriot_signage/models/crm_lead.py:204-231 | a zero bid has a zero margin, and an unset installer rate bills like the $40 default |
| EstimatingLeads.EstimateCount | modules/patriot_estimating/models/crm_lead.py:23-26 | the count is the number of estimates linked to the opportunity, never more than all estimates |
| EstimatingLeads.ViewEstimates | modules/patriot_estimating/models/crm_lead.py:28-40 | the action lists the opportunity's estimates and creates new ones for it, and opens a single estimate's form exactly when there is exactly one |
| EstimatingLeads.EstimateCountAppend | modules/patriot_estimating/models/crm_lead.py:23-26 | a new estimate on an opportunity raises its count by one |
| EstimatingLeads.LiveEstimate | modules/patriot_estimating/models/crm_lead.py:64-67 | the search finds an estimate of the opportunity that is not lost, and none exactly when every one of its estimates is lost |
| EstimatingLeads.AutoEstimate | modules/patriot_estimating/models/crm_lead.py:58-79 | an opportunity with a live estimate gets nothing new; otherwise one draft estimate for it, with its general contractor, is added |
| EstimatingLeads.AutoEstimateThenView | modules/patriot_estimating/models/crm_lead.py:28-79 | an opportunity without estimates that gets its automatic one opens that estimate's form |
| EstimatingLeads.WriteStage | modules/patriot_estimating/models/crm_lead.py:42-56 | a write stores the new stage, and only a move to the Estimating stage (when that stage exists) triggers the automatic estimate |
| EstimatingLeads.EstimatingLeavesLiveEstimate | modules/patriot_estimating/models/crm_lead.py:42-79 | after moving to Estimating the opportunity always has a live estimate, with at most one estimate added |
| EstimatingLeads.EstimatingTwice | modules/patriot_estimating/models/crm_lead.py:42-79 | moving to Estimating again changes nothing more |
| ItbIngest.MonthNumber | modules/patriot_cc_ops/models/cc_opportunity.py:116-118 | an English month name gives its number 1 to 12, and anything else reads as January |
| ItbIngest.MonthFrom | modules/patriot_cc_ops/models/cc_opportunity.py:116-118 | the month table lookup from a position on finds the name's number, or 1 when the name is not there |
| ItbIngest.MonthNumberFacts | modules/patriot_cc_ops/models/cc_opportunity.py:116-118 | January is 1, December is 12, and an unknown name is 1 |
| ItbIngest.ProjectName | modules/patriot_cc_ops/models/cc_opportunity.py:78-87 | the name paragraph wins when found; otherwise the subject ("New ITB" when absent) with the invitation prefix and trade suffix removed |
| ItbIngest.BidDate | modules/patriot_cc_ops/models/cc_opportunity.py:109-119 | a bid date is written exactly when the date pattern matched inside the bid text |
| ItbIngest.DateTextRoundTrip | modules/patriot_cc_ops/models/cc_opportunity.py:119 | the written "year-month-day" text splits into three digit fields that read back as the year, month and day, month and day padded to two digits |
| ItbIngest.LocationParts | modules/patriot_cc_ops/models/cc_opportunity.py:128-139 | one part sets nothing, two set only the street, three or more set street and city, and state and zip come from the last part only when it has two words |
| ItbIngest.ThreeParts | modules/patriot_cc_ops/models/cc_opportunity.py:127-139 | "street, city, state zip" fills the street, the city, the state and the zip |
| ItbIngest.TrimmedJoin | modules/patriot_cc_ops/models/cc_opportunity.py:126 | stripping a location that neither starts nor ends with a blank leaves it unchanged |
| ItbIngest.LocationThreeParts | modules/patriot_cc_ops/models/cc_opportunity.py:124-139 | a location of three comma-free pieces is split back into exactly those pieces, giving street, city, state and zip |
| ItbIngest.Description | modules/patriot_cc_ops/models/cc_opportunity.py:152-157 | the cleaned description is kept whole when it has at most 200 characters and cut to its first 200 otherwise |
| ItbIngest.StripOpt | modules/patriot_cc_ops/models/cc_opportunity.py:106-107 | a captured text is stored stripped, and a missing one is not stored |
| ItbIngest.Assemble | modules/patriot_cc_ops/models/cc_opportunity.py:70-159 | the record is named "ITB: " plus the project name and starts new; the access link has "&amp;" unescaped; id, access code, bid time, contractor and contact are stored when captured; the address exactly as the location parses; the description, capped at 200 characters, as owner |
| ItbIngest.SourceUrlRoundTrip | modules/patriot_cc_ops/models/cc_opportunity.py:91-93 | a link that was HTML-escaped in the email is stored as the original link |
| Locations.DisplayNameFull | modules/patriot_signage/models/location.py:165-171 | a location with a parent shows "Parent / Name", one without shows its own name |
| Locations.OwnLabel | modules/patriot_signage/models/location.py:191-194 | a numbered room is labelled "number - name", or just the number when name and number agree; anything else by its name |
| Locations.NameGet | modules/patriot_signage/models/location.py:187-201 | each location pairs its id with its label, prefixed by "Parent / " when it has a parent |
| Locations.NameGetMatchesDisplay | modules/patriot_signage/models/location.py:165-201 | for everything but numbered rooms the dropdown label and the full display name agree |
| Locations.OnlyParentShows | modules/patriot_signage/models/location.py:165-201 | the labels depend on no location other than the parent, and on the parent only through its name |
| Locations.RenameParent | modules/patriot_signage/models/location.py:165-171 | renaming a location changes the display name of its children, to the new name, and of no other location |
| Locations.ChildCount | modules/patriot_signage/models/location.py:173-176 | only active children count, and the count is zero exactly when every child is archived |
| Locations.ArchiveChild | modules/patriot_signage/models/location.py:140-176 | archiving an active child lowers its parent's count by one, and restoring it puts the count back |
| SignInstances.Name | modules/patriot_signage/models/sign_instance.py:250-259 | an instance of a sign type is named after the type and its plan room number, or the type and its sequence (its id when the sequence is unset); an instance without a type is "Instance #id" |
| SignInstances.NumberedNamesDistinct | modules/patriot_signage/models/sign_instance.py:250-257 | two numbered instances of one sign type with different sequences never share a name |
| SignInstances.CopyFullLines | modules/patriot_signage/models/sign_instance.py:262-271 | the full copy splits back on line breaks into exactly the copy lines that are set, in order, none of them empty |
| SignInstances.NoCopy | modules/patriot_signage/models/sign_instance.py:262-271 | an instance with no copy lines set has empty full copy |
| SignInstances.Approve | modules/patriot_signage/models/sign_instance.py:278-284 | approving sets the approved state, the approved flag and today's date and nothing else |
| SignInstances.MarkInstalled | modules/patriot_signage/models/sign_instance.py:286-292 | marking installed sets the installed state, the installed flag and today's date and nothing else |
| SignInstances.ActionsIdempotent | modules/patriot_signage/models/sign_instance.py:278-292 | approving or marking installed twice on one day is the same as doing it once |
| SignInstances.WriteAll | modules/patriot_field_service/models/installation.py:240-244 | a write to a set of instances changes exactly those instances and keeps every other record |
| SignInstances.InstalledCount | modules/patriot_field_service/models/installation.py:208-211 | an installation never has more installed signs than signs |
| SignInstances.MarkAllInstalled | modules/patriot_field_service/models/installation.py:240-244 | after marking all of an installation's instances installed, its installed count equals its instance count |
| Submittals.Submit | modules/patriot_submittals/models/submittal.py:180-185 | submitting sets the submitted state and today as submission date and nothing else |
| Submittals.Counts | modules/patriot_submittals/models/submittal.py:160-168 | the sign type and attachment counts are the numbers of sign types and attachments linked |
| Submittals.SubmitFacts | modules/patriot_submittals/models/submittal.py:160-212 | submitting is idempotent and keeps the response; a revision of a submitted submittal starts unsubmitted with the same counts |
| Submittals.MarkReviewed | modules/patriot_submittals/models/submittal.py:171-192 | reviewing sets the reviewed state and the response date and leaves the architect's response, so approval, unchanged |
| Submittals.CreateRevision | modules/patriot_submittals/models/submittal.py:194-212 | a revision copies project, sign types and attachments, names itself "-R" plus the next revision number, points back to the original, and restarts as an unapproved draft with no dates |
| Submittals.Revisions | modules/patriot_submittals/models/submittal.py:194-212 | a chain of revisions has one submittal per revision made |
| Submittals.RevisionChain | modules/patriot_submittals/models/submittal.py:194-212 | the k-th revision in a chain carries revision number k+1 past the original, keeps the original name as prefix, and points to the revision before it |
| Installations.ActualDuration | modules/patriot_field_service/models/installation.py:194-201 | the duration in hours is the elapsed seconds over 3600 when both start and end are set, else zero |
| Installations.Counts | modules/patriot_field_service/models/installation.py:203-211 | an installation counts its signs, and the installed ones are never more |
| Installations.ConfirmIdempotent | modules/patriot_field_service/models/installation.py:222-224 | confirming twice is confirming once, and confirming changes neither the duration nor the sign counts |
| Installations.Start | modules/patriot_field_service/models/installation.py:226-231 | starting sets the in-progress state and the start time and nothing else |
| Installations.StartThenComplete | modules/patriot_field_service/models/installation.py:226-242 | starting again restarts the clock, and an installation started and then completed lasts from the start to the completion |
| Installations.Highest | modules/patriot_field_service/models/installation.py:262-264 | the search finds the highest application number of the project, and nothing exactly when the project has no application |
| Installations.HighestAttained | modules/patriot_field_service/models/installation.py:262-264 | the highest number found belongs to an existing application of the project |
| Installations.NextNumber | modules/patriot_field_service/models/installation.py:262-265 | the next number exceeds every application number of the project, and is 1 for a project without applications |
| Installations.CreatePayApp | modules/patriot_field_service/models/installation.py:252-273 | corrected guard: with billing installed one draft application is appended for the project with the next number and today as its period; without billing nothing changes |
| OdooEnv.EnvGet | modules/patriot_field_service/models/installation.py:255 | `env.get` of a model gives its empty recordset when the add-on is installed and None otherwise, so its truth value is false either way |
| Installations.CreatePayAppAsWritten | modules/patriot_field_service/models/installation.py:255-257 | as written the billing lookup is never true, so no application is ever appended |
| Installations.PayAppNumbersUnique | modules/patriot_field_service/models/installation.py:258-273 | under the corrected guard, if the project's application numbers were distinct they stay distinct after a new one is created |
| Installations.FirstApplications | modules/patriot_field_service/models/installation.py:265 | under the corrected guard a project's first applications are numbered 1 and then 2 |
| Installations.SetStage | modules/patriot_field_service/models/installation.py:245-248 | the stage write changes the stage of the project with that id and nothing else |
| Installations.SetStageFacts | modules/patriot_field_service/models/installation.py:245-248 | writing a stage twice is writing it once, a stage written for an id no project has changes nothing, and every project with the id gets the stage |
| Installations.Complete | modules/patriot_field_service/models/installation.py:233-250 | corrected guard: completing ends the installation now, marks each of its signs installed today, moves its project (if any) to punch list, and asks billing for a pay application, which is created when billing is installed |
| Installations.CompleteAsWritten | modules/patriot_field_service/models/installation.py:233-257 | as written completion does everything the corrected one does except create a pay application |
| Installations.CompleteAsWrittenBillsNothing | modules/patriot_field_service/models/installation.py:250-273 | with billing installed the corrected completion adds the project's next application and the code as written adds none |
| Installations.CompleteInstallsAll | modules/patriot_field_service/models/installation.py:194-250 | after completion every sign of the installation counts as installed and the duration is the hours since it was started |
| ProductionOrders.Press | modules/patriot_production/models/production_order.py:132-153 | each stage button sets its state; only starting design also records the start time; nothing else changes |
| ProductionOrders.PressUnconditional | modules/patriot_production/models/production_order.py:132-153 | no state is checked: every button reaches its target from any state, even a completed order, and pressing a button twice is pressing it once |
| ProductionOrders.Complete | modules/patriot_production/models/production_order.py:155-162 | completing ends the order now and moves exactly its own instances to production |
| ProductionOrders.InstallationOf | modules/patriot_production/models/production_order.py:196-198 | the search finds the first installation of the project, and none exactly when the project has none |
| ProductionOrders.CreateInstallation | modules/patriot_production/models/production_order.py:186-211 | corrected guard: the project's existing installation is reused; otherwise a scheduled one named "INST-" plus the project a week from today, with the order's signs, is created; nothing without field service |
| ProductionOrders.CreateInstallationAsWritten | modules/patriot_production/models/production_order.py:189-191 | as written the installation lookup is never true, so nothing is found or created |
| ProductionOrders.Ship | modules/patriot_production/models/production_order.py:176-184 | corrected guard: shipping marks the order shipped, moves its project (if any) to shipping, and ensures an installation when field service is installed |
| ProductionOrders.ShipAsWritten | modules/patriot_production/models/production_order.py:176-191 | as written shipping does everything the corrected action does except create an installation |
| ProductionOrders.ShipAsWrittenInstallsNothing | modules/patriot_production/models/production_order.py:183-211 | shipping an order of a project without an installation: the corrected action creates one, the code as written leaves the project without any |
| ProductionOrders.ShipEnsuresOneInstallation | modules/patriot_production/models/production_order.py:176-211 | under the corrected guard, after shipping the project has an installation, at most one was added, and shipping another order of the project adds nothing |
| ProductionOrders.NewInstallationFields | modules/patriot_production/models/production_order.py:200-210 | under the corrected guard a new installation is scheduled seven days out for the project, carrying all of the order's signs |
| PdfViewer.Initial | modules/patriot_cc_ops/static/src/js/pdf_viewer.js:28-69 | the viewer starts on page 1 at 100% in a consistent state, listing every loaded document |
| PdfViewer.Open | modules/patriot_cc_ops/static/src/js/pdf_viewer.js:202-249 | opening a document selects it and shows its first page of its page count, keeping the viewer consistent and changing nothing else |
| PdfViewer.PrevPage | modules/patriot_cc_ops/static/src/js/pdf_viewer.js:281-286 | going back moves one page down except on the first page, where nothing changes |
| PdfViewer.NextPage | modules/patriot_cc_ops/static/src/js/pdf_viewer.js:288-293 | going forward moves one page up except on the last page, where nothing changes |
| PdfViewer.GoToPage | modules/patriot_cc_ops/static/src/js/pdf_viewer.js:295-300 | a page number inside the document is shown and any other is ignored |
| PdfViewer.PageInput | modules/patriot_cc_ops/static/src/js/pdf_viewer.js:302-307 | typed text that reads as an integer goes to that page, and text that does not is ignored |
| PdfViewer.TypedPage | modules/patriot_cc_ops/static/src/js/pdf_viewer.js:302-307 | typing a page number shows that page when it exists and otherwise stays put |
| PdfViewer.PagesInverse | modules/patriot_cc_ops/static/src/js/pdf_viewer.js:281-293 | away from the first and last page, back and forward undo each other |
| PdfViewer.RunKeepsValid | modules/patriot_cc_ops/static/src/js/pdf_viewer.js:202-326 | any sequence of page, typing, opening and zoom actions keeps the shown page inside the document and the zoom label equal to the scale |
| PdfViewer.ZoomIn | modules/patriot_cc_ops/static/src/js/pdf_viewer.js:310-314 | zooming in adds a quarter up to the 400% cap and relabels the percentage, changing nothing else |
| PdfViewer.ZoomOut | modules/patriot_cc_ops/static/src/js/pdf_viewer.js:316-320 | zooming out takes a quarter off down to the 25% floor and relabels the percentage, changing nothing else |
| PdfViewer.ResetZoom | modules/patriot_cc_ops/static/src/js/pdf_viewer.js:322-326 | resetting returns to scale 1 labelled "100%" |
| PdfViewer.PercentExact | modules/patriot_cc_ops/static/src/js/pdf_viewer.js:312-318 | on every reachable scale the rounded percentage is exact, so the label shows the true scale |
| PdfViewer.ZoomInverse | modules/patriot_cc_ops/static/src/js/pdf_viewer.js:310-320 | below the cap zooming out undoes zooming in, above the floor zooming in undoes zooming out, and at the cap or floor the button does nothing |
| PdfViewer.ThreeZoomIns | modules/patriot_cc_ops/static/src/js/pdf_viewer.js:310-326 | from reset, three zoom-ins show "175%" |
| PdfViewer.ToggleSplitView | modules/patriot_cc_ops/static/src/js/pdf_viewer.js:341-343 | the split-view toggle flips only that flag |
| PdfViewer.ToggleBookmarkMode | modules/patriot_cc_ops/static/src/js/pdf_viewer.js:346-348 | the bookmark-mode toggle flips only that flag |
| PdfViewer.TogglesInvolutive | modules/patriot_cc_ops/static/src/js/pdf_viewer.js:341-348 | toggling twice restores the viewer |
| PdfViewer.SetFilter | modules/patriot_cc_ops/static/src/js/pdf_viewer.js:164-178 | with a filter, the listed documents are exactly those whose name contains it regardless of case; without one, all documents |
| PdfViewer.FilterIgnoresCase | modules/patriot_cc_ops/static/src/js/pdf_viewer.js:165 | filtering by a text and by its lower-case form lists the same documents |
| PdfViewer.FilterKeepsOrder | modules/patriot_cc_ops/static/src/js/pdf_viewer.js:169-171 | a new matching document is listed after the existing matches, in list order |
| PdfViewer.CanvasClick | modules/patriot_cc_ops/static/src/js/pdf_viewer.js:351-387 | outside bookmark mode clicks are ignored; otherwise the click's position relative to the page goes to the parent handler with the open document and page, or becomes a temporary yellow marker on the current page |
| PdfViewer.ClickInsidePage | modules/patriot_cc_ops/static/src/js/pdf_viewer.js:356-358 | a click inside the page gives a marker position between 0 and 1 on both axes |
| PdfViewer.PageBookmarks | modules/patriot_cc_ops/static/src/js/pdf_viewer.js:443-445 | the page shows exactly the bookmarks whose page is the current one |
| PdfViewer.MarkerShowsOnItsPage | modules/patriot_cc_ops/static/src/js/pdf_viewer.js:373-387 | a new marker appears after the page's other bookmarks and on no other page |
| PdfViewer.LoadBookmarks | modules/patriot_cc_ops/static/src/js/pdf_viewer.js:389-417 | the saved bookmarks are loaded one for one with their page, position, colour (yellow when unset) and sign type; a failed load leaves none |
| PdfViewer.LoadingClearsMarkers | modules/patriot_cc_ops/static/src/js/pdf_viewer.js:389-417 | after loading, every bookmark is a saved one, so unsaved markers are gone |
| SignTally.Drawings | modules/patriot_cc_ops/static/src/js/sign_tally.js:63-65 | the documents shown are exactly those with the PDF type or a name ending in ".pdf" in any case, each as often as it is attached |
| SignTally.DrawingsKeepOrder | modules/patriot_cc_ops/static/src/js/sign_tally.js:63-65 | the drawings keep the documents' order: a document added last is listed last when it is a drawing, and not at all otherwise |
| SignTally.UpperCaseExtension | modules/patriot_cc_ops/static/src/js/sign_tally.js:64 | a file named ".PDF" counts as a drawing whatever its type |
| SignTally.Increment | modules/patriot_cc_ops/static/src/js/sign_tally.js:89-94 | the plus button raises the chosen sign type's quantity by one and touches no other |
| SignTally.TotalSigns | modules/patriot_cc_ops/static/src/js/sign_tally.js:296-298 | with no negative quantities the total is non-negative and at least each sign type's quantity |
| SignTally.Decrement | modules/patriot_cc_ops/static/src/js/sign_tally.js:96-103 | the minus button lowers a positive quantity by one and does nothing at zero |
| SignTally.CountersInverse | modules/patriot_cc_ops/static/src/js/sign_tally.js:89-103 | minus undoes plus, and plus undoes minus on a positive quantity |
| SignTally.SumIntUpdate | modules/patriot_cc_ops/static/src/js/sign_tally.js:296-297 | changing one quantity changes the total by the difference |
| SignTally.TotalFollowsButtons | modules/patriot_cc_ops/static/src/js/sign_tally.js:89-103 | plus raises the total by one, and minus lowers it by one unless the quantity was zero |
| SignTally.SameName | modules/patriot_cc_ops/static/src/js/sign_tally.js:123-125 | the lookup finds the first sign type with the same name regardless of case, and none exactly when no name matches |
| SignTally.NameInput | modules/patriot_cc_ops/static/src/js/sign_tally.js:117-135 | typing a name keeps it; a non-blank name matching a sign type copies its size and window and marks the form auto-filled, a non-matching one clears the mark |
| SignTally.AutoFillIgnoresCase | modules/patriot_cc_ops/static/src/js/sign_tally.js:122-130 | typing an existing name in lower case still auto-fills that sign type's size |
| SignTally.OrZero | modules/patriot_cc_ops/static/src/js/sign_tally.js:137-143 | a size field holds the number typed, or 0 when the text is not a number |
| SignTally.SaveNew | modules/patriot_cc_ops/static/src/js/sign_tally.js:153-178 | a blank name is refused with "Please enter a Sign ID"; otherwise a sign type with the stripped name and quantity 1 is created for the opportunity |
| SignTally.SaveNewCounts | modules/patriot_cc_ops/static/src/js/sign_tally.js:153-178 | a saved new sign type has a non-empty stripped name and raises the total by one |
| SignTally.SaveEdit | modules/patriot_cc_ops/static/src/js/sign_tally.js:219-243 | a blank name is refused; otherwise the edited name (stripped), size, window, material, mounting and notes are written and id, opportunity and quantity kept |
| SignTally.SaveEditIdempotent | modules/patriot_cc_ops/static/src/js/sign_tally.js:219-243 | saving the same edit twice equals saving it once, and saving an unchanged, tidy row changes nothing |
| SignTally.Delete | modules/patriot_cc_ops/static/src/js/sign_tally.js:245-257 | deleting removes exactly the rows with that id and keeps every other row as often as it occurred |
| SignTally.DeleteKeepsOrder | modules/patriot_cc_ops/static/src/js/sign_tally.js:245-257 | the remaining rows keep their order |
| SignTally.DeleteTotal | modules/patriot_cc_ops/static/src/js/sign_tally.js:245-257 | deleting a sign type lowers the total by its quantity |
| JsNumbers.DigitPrefix | modules/patriot_cc_ops/static/src/js/pdf_viewer.js:303 | the run of digits read is all digits and stops at the first non-digit |
| JsNumbers.ParseSigned | modules/patriot_cc_ops/static/src/js/pdf_viewer.js:303-304 | after the sign, text with no leading digit reads as not-a-number and any other text as a number |
| JsNumbers.ParseIntText | modules/patriot_cc_ops/static/src/js/pdf_viewer.js:303 | a printed integer, followed by anything that does not start with a digit, reads back as itself |
| JsNumbers.ParseIntBlanks | modules/patriot_cc_ops/static/src/js/pdf_viewer.js:303 | leading blanks do not change what is read |
| TaskSelector.FilteredProjects | modules/patriot_timeclock/static/src/js/task_selector.js:62-68 | with a query, the projects listed are exactly those whose name contains it regardless of case, each as often as it occurs; without one, all projects |
| TaskSelector.FilteredTasks | modules/patriot_timeclock/static/src/js/task_selector.js:70-77 | with a query, the tasks listed are exactly those whose own name or project name contains it regardless of case, each as often as it occurs; without one, all tasks |
| TaskSelector.FilteredProjectsKeepOrder | modules/patriot_timeclock/static/src/js/task_selector.js:62-68 | the projects listed keep their order: one added last is listed last when it matches, and not at all otherwise |
| TaskSelector.FilteredTasksKeepOrder | modules/patriot_timeclock/static/src/js/task_selector.js:70-77 | the tasks listed keep their order: one added last is listed last when it matches, and not at all otherwise |
| TaskSelector.SearchByProjectKeepsItsTasks | modules/patriot_timeclock/static/src/js/task_selector.js:62-77 | searching for a project's name keeps that project and every task of it on screen |
| TaskSelector.SelectProject | modules/patriot_timeclock/static/src/js/task_selector.js:83-91 | picking a project selects it, clears the task, and writes the project into the form with no task |
| TaskSelector.SelectTask | modules/patriot_timeclock/static/src/js/task_selector.js:93-101 | picking a task selects it and writes it into the form along with its project, or no project when it has none |
| TaskSelector.SelectionExclusive | modules/patriot_timeclock/static/src/js/task_selector.js:83-109 | after picking a project only that project's cards are highlighted and no task; after picking a task only that task's cards, and no project, not even the task's own |
| TaskSelector.TaskThenProject | modules/patriot_timeclock/static/src/js/task_selector.js:83-101 | picking a task's own project after the task keeps the project and drops the task |
| TaskSelector.CardColor | modules/patriot_timeclock/static/src/js/task_selector.js:111-119 | a card's colour is the palette entry at its colour index modulo eleven, and a negative index (JavaScript's remainder) finds no colour |
| TaskSelector.PaletteRepeats | modules/patriot_timeclock/static/src/js/task_selector.js:111-119 | the palette repeats every eleven colours, colour 0 is "#F06050", and every non-negative index has a colour |
| AiSearch.Initial | modules/patriot_timeclock/static/src/js/ai_search.js:21-34 | the box opens empty with no results |
| AiSearch.InputChange | modules/patriot_timeclock/static/src/js/ai_search.js:36-51 | typing stores the text, marks it unsearched, and schedules a search exactly when it has at least two characters |
| AiSearch.SelectResult | modules/patriot_timeclock/static/src/js/ai_search.js:104-122 | choosing a task fills task and its project (if any), choosing a project fills the project and clears the task, any other kind leaves the form; the box then shows the result's label with no list |
| AiSearch.Search | modules/patriot_timeclock/static/src/js/ai_search.js:74-102 | a query under two characters does nothing; a failed call leaves no results; a single hit of confidence at least 0.85 is picked by itself; otherwise the hits are listed with the first highlighted |
| AiSearch.AutoPickIff | modules/patriot_timeclock/static/src/js/ai_search.js:88-95 | a non-empty reply leaves no list exactly when it is one hit of confidence at least 0.85, which then fills the box; any other reply is listed as given |
| AiSearch.KeyDown | modules/patriot_timeclock/static/src/js/ai_search.js:53-72 | Enter picks the highlighted result, or asks for a search when there is no list and the query is long enough; the arrows move the highlight within the list; other keys do nothing |
| AiSearch.ArrowsInverse | modules/patriot_timeclock/static/src/js/ai_search.js:61-70 | away from the last result, arrow down then arrow up returns to the same highlight |
| AiSearch.Presses | modules/patriot_timeclock/static/src/js/ai_search.js:53-72 | n presses of an arrow move the highlight n places, stopping at the first or last result; other keys change nothing; the highlight stays inside the list |
| AiSearch.DownToLast | modules/patriot_timeclock/static/src/js/ai_search.js:61-65 | pressing arrow down often enough highlights the last result and stays there |
| AiSearch.ConfidenceBands | modules/patriot_timeclock/static/src/js/ai_search.js:124-134 | colour and icon always show the same band, higher confidence never shows a lower band, and a hit shown green is picked by itself when it is the only one |
| AiSearch.ConfidenceClass | modules/patriot_timeclock/static/src/js/ai_search.js:124-128 | green from 0.85 up, amber from 0.6 up to 0.85, grey below 0.6 |
| AiSearch.ConfidenceIcon | modules/patriot_timeclock/static/src/js/ai_search.js:130-134 | a check from 0.85 up, a question mark from 0.6 up to 0.85, an empty circle below 0.6 |
| BarcodeKiosk.LoadStatus | modules/patriot_timeclock/static/src/js/barcode_kiosk.js:40-58 | an open punch shows "Currently: " with its project, or "Unknown project" when the project is missing or its name is empty; no open punch (or a failed call) leaves the screen unchanged |
| BarcodeKiosk.LoadStatusFacts | modules/patriot_timeclock/static/src/js/barcode_kiosk.js:50-53 | loading twice is loading once, an empty project name reads like a missing project, and after a reset a named project keeps its "Currently:" line while an unknown one shows nothing |
| BarcodeKiosk.KeyDown | modules/patriot_timeclock/static/src/js/barcode_kiosk.js:79-95 | Enter hands over a non-empty buffer and empties it; a single-character key is added to the buffer; anything else is ignored |
| BarcodeKiosk.Keys | modules/patriot_timeclock/static/src/js/barcode_kiosk.js:79-95 | a barcode scanner types one single-character key per character of the code |
| BarcodeKiosk.TypeCollects | modules/patriot_timeclock/static/src/js/barcode_kiosk.js:90-93 | typing the characters of a code appends them to the buffer and hands nothing over |
| BarcodeKiosk.ScanDelivers | modules/patriot_timeclock/static/src/js/barcode_kiosk.js:79-95 | a scanned code followed by Enter is handed over whole, exactly once, and the buffer is empty afterwards |
| BarcodeKiosk.TypeAppend | modules/patriot_timeclock/static/src/js/barcode_kiosk.js:79-95 | typing two runs of keys is typing the first and then the second, the handed-over codes concatenated |
| BarcodeKiosk.Process | modules/patriot_timeclock/static/src/js/barcode_kiosk.js:97-138 | a success shows the project with "Switched to", "Already on" or "Clocked into" and the previous project after a switch; a refusal shows its message and a failed call "Error processing barcode", both keeping the current project |
| BarcodeKiosk.Reset | modules/patriot_timeclock/static/src/js/barcode_kiosk.js:145-151 | the reset screen asks for a project barcode and shows the current project, if any |
| BarcodeKiosk.AfterReset | modules/patriot_timeclock/static/src/js/barcode_kiosk.js:97-151 | after the reset the kiosk is ready again, resetting twice is resetting once, and it shows the project just clocked into, or what it showed before a failure |
| ExportQueue.Sanitize | odoo_complete_export.py:203-214 | None and False give an empty cell, bytes the "<binary data>" marker, and everything else Python's printed form: True as "True", numbers in decimal, strings as they are, lists in brackets with strings quoted |
| ExportQueue.SanitizeEmptyIff | odoo_complete_export.py:203-214 | a cell is empty exactly for None, False and the empty string |
| ExportQueue.ManyToOneCell | odoo_complete_export.py:207-211 | a many-to-one [id, name] pair is written as "[id, 'name']" |
| ExportQueue.PriorityPart | odoo_complete_export.py:312-316 | the first part of the queue holds exactly the priority models that exist, are not skipped and (when resuming) not yet exported, without repeats |
| ExportQueue.BuildQueue | odoo_complete_export.py:305-322 | the queue holds exactly the existing models that are not skipped by configuration or (when resuming) by an earlier export, with no model twice and the priority models first in their configured order |
| ExportQueue.Tally | odoo_complete_export.py:328-347 | every exported model counts once as success or failure, the empty ones are among the successes, and the failures are kept in queue order |
| ExportQueue.TallyStep | odoo_complete_export.py:336-347 | one more outcome adds one to its own counter and appends a failure to the error list |
| Replicate.Add | omega_to_patriot_replicate.py:276-279 | recording a pair creates the model's table when needed and adds no other model |
| Replicate.AddGet | omega_to_patriot_replicate.py:276-285 | a recorded pair reads back as the new id and counts as known; every other pair reads and tests as before; an unknown model or id reads as absent |
| Replicate.Stats | omega_to_patriot_replicate.py:303-304 | the statistics give every known model the number of ids mapped for it |
| Replicate.StatsAfterAdd | omega_to_patriot_replicate.py:276-279 | recording a new pair raises its model's count by one, re-recording a known one does not, and other models keep their counts |
| Replicate.WritableFields | omega_to_patriot_replicate.py:775-783 | the copied fields are exactly the source fields that are not bookkeeping, not excluded, not of a skipped type, and not read-only unless they are the name |
| Replicate.NameAlwaysCopied | omega_to_patriot_replicate.py:775-783 | the name is copied even when read-only, any other read-only field is not, and bookkeeping fields such as the id and creation date never are |
| Replicate.OnDelete | omega_to_patriot_replicate.py:467-473 | only a required many-to-one gets a deletion rule; it is the source's rule (cascade by default), except that "set null", impossible on a required field, becomes cascade |
| Replicate.KeyDomain | omega_to_patriot_replicate.py:845-849 | the search uses exactly the key fields whose values are set and truthy, with those values |
| Replicate.FindExisting | omega_to_patriot_replicate.py:842-856 | a record with no truthy key is never searched for; otherwise the first target match is used, and a failed or empty search finds nothing |
| Replicate.NoKeyNoSearch | omega_to_patriot_replicate.py:843-851 | without a usable key the result does not depend on the target at all |
| Replicate.MapOne | omega_to_patriot_replicate.py:889-899 | one many-to-many id becomes its mapped id when the map gives a non-zero one, else itself when the target has it, else nothing |
| Replicate.MapMany | omega_to_patriot_replicate.py:888-899 | a single id is mapped by the per-id rule, every id with a non-zero mapping contributes it, and no more ids are written than the source has |
| Replicate.MapManyAppend | omega_to_patriot_replicate.py:889-899 | mapping a list is mapping its parts in turn, so each id is mapped on its own and the results keep the list's order |
| Replicate.FieldOut | omega_to_patriot_replicate.py:860-903 | the id, bookkeeping fields and unset values are never written |
| Replicate.PrepareValues | omega_to_patriot_replicate.py:858-905 | the new record's values hold exactly the set, non-bookkeeping source fields that have something to write, each as the field rule gives it |
| Replicate.PrepareCopiesAndMaps | omega_to_patriot_replicate.py:866-876 | a plain field is copied unchanged, and a mapped many-to-one is written exactly when the id map knows a non-zero target id, which is then written |
| Replicate.ManyToManyWritten | omega_to_patriot_replicate.py:885-901 | a many-to-many is written exactly when some id survives the mapping, as a replacement by the surviving ids |
| Replicate.CopyRecords | omega_to_patriot_replicate.py:795-840 | every record read counts once as created, skipped, failed or previewed; a dry run creates nothing and fails nothing; known mappings are kept; every record found on the target or created is mapped afterwards, and nothing but this model's records is added |

## Left out

- Network and browser automation are not modelled, because they are I/O. This covers:
  - the ConstructConnect fetch worker and API scraper;
  - the XML-RPC and JSON-RPC connection classes;
  - the schema, access and UI phases of the replicator;
  - the CSV export connection and file writing;
  - the GPT and search controllers (the search reply is an input of `AiSearch.Search`);
  - the Google Maps distance call (the distance is an input of `CrmLeads.TravelCost`).
- Rendering and the DOM are not modelled. This covers:
  - PDF.js loading and page rendering, and overlay drawing beyond the page filter;
  - fullscreen and `formatSize`;
  - notifications, sounds and the other dashboards and themes.
- Timers are left out because the model has no clock inside a widget: the search box's 600 ms debounce, the barcode buffer-clearing interval, and the kiosk's 3-second reset delay (`BarcodeKiosk.Reset` is the reset itself).
- ORM machinery is not modelled: mail tracking, `message_post`, `sudo`, recomputation triggers, and `env.ref` lookups (passed in as parameters).
- Declaration-only models, the init hooks and the one-line computes of the other add-ons are left out, because they hold no rules.
- Round-sign areas with π and `round(x, 2)` of unit costs are left out, because they are float-specific.
- Python's `str()` of a float in exponent notation, and string escaping inside a list's `repr`, are left out of `ExportQueue.Sanitize`. Floats are printed as plain decimals, and strings are quoted without escaping.
- Odoo's `ilike` is modelled as a case-insensitive substring test. SQL wildcards inside the searched text (`%`, `_`) are not interpreted.
- Lower-casing (`toLowerCase`, `lower()`) is modelled for ASCII letters only.
- `parseFloat` of typed text is not modelled: `SignTally.OrZero` takes the parse result as input.
- `JsNumbers.ParseInt` reads decimal digits only. JavaScript's other forms (a "0x" prefix is not read with radix 10 anyway) and very large numbers are not modelled.
- Copying the project template's tasks in `create_from_opportunity` is not modelled: a project made from the template has the template's fields overwritten by the opportunity's, as modelled, and its extra tasks are left out.
- Populating a new automatic estimate's lines from the sign types is left out of `EstimatingLeads.AutoEstimate`; it is `action_populate_from_sign_types` of the estimate.
- The exception path of `_compute_timesheet_totals` (any database error gives zero) is left out: `LeadProfit.TimesheetTotals` has no failing search.
- Reading `extended_cost` of sign types is modelled as a plain input, although the sign type declares no such field.
- `action_switch_to_task` is left out: it only starts work (`Tasks.StartWork`) and returns a URL.
- The queue display fields of `get_my_work_queue` (phase, estimated and actual hours) and `get_active_task_info` are left out, because they are copies of stored fields. The QR-code image of a task barcode is left out too.
- The ordering of `get_active_punch` is not modelled: the model finds the first open punch of the employee, and at most one exists (`Kiosk.SwitchKeepsOneActive`).
- The replicator's record paging (batches of 100) is not modelled: `Replicate.CopyRecords` takes the records read, in id order. The following are left out too:
  - saving and loading the id map as JSON;
  - creating fields other than their deletion rule;
  - the run statistics dictionary and dry-run logging.
- The exporter's paging through a model's records and its CSV writing are left out; `ExportQueue.Tally` takes each model's outcome.
- `Replicate.FieldOut`: an empty many-to-one list (a Python `IndexError`) and a non-integer id are modelled as writing nothing.
- `SignTypes.AutoPrice`: the unit cost is not rounded to cents.
- `SignTally.Increment`: quantities are always present, so "a missing quantity counts as 0" has nothing to act on. The same holds for `SignTally.TotalSigns`.
- `PdfViewer.CanvasClick` requires a page box of positive width and height, which a rendered page always has.
- `Kiosk.TakeBreak`: a punch without an employee is treated as an error, because the employee is a required field.
- `TimePunches.AdminAdjust` returns the id of the entry it unlinks instead of removing it from a store of timesheet lines, which the model does not keep.
- `PanelPricing.ComputePanelPrice` reads fields of the panel parameters that the parameters model never declares (the sheet costs `pionite_sheet_cost`, `abs_18_sheet_cost`, `abs_316_sheet_cost`, `acrylic_18_sheet_cost` and `window_sheet_cost`, and the sheet size `pionite_w` by `pionite_h`), so as written it raises an attribute error; the model takes them as inputs.
- `MrpRewrite.RewriteProduction` reads `is_panel_sign` and the `usage_*` fields of the sale order line, which the line never declares, so as written it raises an attribute error; the model takes them as inputs.
- `SaleOrderLines.ComputePricing` prices the corrected layout. The code as written is `SaleOrderLines.ComputePricingAsWritten`, which agrees with it for whole quantities (`SaleOrderLines.PricingAsWrittenWhole`).
- `Installations.Complete`, `Installations.CreatePayApp`, `Installations.PayAppNumbersUnique` and `Installations.FirstApplications` model the evidently intended billing guard; as written no pay application is ever created (`Installations.CompleteAsWrittenBillsNothing`).
- `ProductionOrders.Ship`, `ProductionOrders.CreateInstallation`, `ProductionOrders.ShipEnsuresOneInstallation` and `ProductionOrders.NewInstallationFields` model the evidently intended field-service guard; as written no installation is ever created (`ProductionOrders.ShipAsWrittenInstallsNothing`).
- `CrmLeads.LinkRole`, `CrmLeads.LinkPartners`, `CrmLeads.LinkRoleFacts` and `CrmLeads.LinkRoleLinks` link through the corrected lookup, so a legacy name of blanks links nothing; as written it links the first company on file (`CrmLeads.LinkPartnersAsWritten`, `CrmLeads.BlankLegacyNameLinksAnyCompany`).
- `CrmLeads.CreateProjectFromWon` models the evidently intended submittal and production guards; as written neither record is ever created (`CrmLeads.WonAsWrittenCreatesNeither`).
- `Text.IsSpace` treats the ASCII blanks (space, tab, line feed, vertical tab, form feed, carriage return) as whitespace. Python's `strip()` and `\s` and JavaScript's `trim()` also strip the separators U+001C to U+001F and Unicode blanks such as U+00A0; those are not modelled.

## Findings

| source | as written | input that shows it | evidently intended | confidence | as-written member | corrected member |
|---|---|---|---|---|---|---|
| modules/patriot_signage/models/sign_type.py:394 | the diameter mark of a round sign's label is the two characters "Ã˜", the UTF-8 bytes of "Ø" read as Windows-1252 | a round sign of diameter 12 is labelled `Ã˜ 12"` | `Ø 12"`, the mark the dimension table uses | not executed | SignTypes.DimensionsDisplayAsWritten | SignTypes.DimensionsDisplay |
| sale_order_line.py:115-133 | `int((Q + d - 1) // d)` is used as a ceiling on a float quantity, for the molds (d = signs per mold) and again for the sheets and window sheets (d = molds or windows per sheet) | Q = 1.5, one sign per mold: 1 mold where 2 are needed, making fewer signs than ordered; a 20 by 30 sign (one per mold), Q = 17.5: 1 sheet where 2 are needed, and Q = 0.5: no sheet at all | the least number of molds, sheets and window sheets covering Q signs (2 molds at Q = 1.5; 2 sheets at Q = 17.5 and 1 at Q = 0.5) | not executed | SaleOrderLines.SheetsAsWrittenFallShort | SaleOrderLines.ComputeLayout |
| modules/patriot_crm/models/crm_lead.py:381-390 | the emptiness test runs before stripping, so a name of blanks searches with the empty key, which `ilike` matches in every company | a legacy contractor name "  " links the lead to the first company on file | a blank name links nothing, like an empty one | not executed | CrmLeads.GetOrCreatePartnerAsWritten | CrmLeads.GetOrCreatePartner |
| modules/patriot_crm/models/crm_lead.py:414-436 | `create` links each role through `_get_or_create_partner` whenever `vals.get(...)` of the legacy name is truthy, which a name of blanks is | an opportunity created with contractor name "  ", no contractor partner and one company on file is linked to that company | a blank legacy name links nothing | not executed | CrmLeads.LinkPartnersAsWritten | CrmLeads.LinkPartners |
| modules/patriot_field_service/models/installation.py:255-257 | `PayApp = self.env.get('ps.pay.application')` then `if not PayApp: return False`; the lookup gives the model's empty recordset, which is false | completing an installation of a project with billing installed: no pay application is created | create the project's next pay application when billing is installed | not executed | Installations.CompleteAsWrittenBillsNothing | Installations.Complete |
| modules/patriot_production/models/production_order.py:189-191 | the same guard: `Installation = self.env.get('ps.installation')` then `if not Installation: return False` | shipping an order of a project with field service installed and no installation: none is created | create (or reuse) the project's installation | not executed | ProductionOrders.ShipAsWrittenInstallsNothing | ProductionOrders.Ship |
| modules/patriot_crm/models/crm_lead.py:484-510 | the same guard twice: `Submittal = self.env.get('ps.submittal')` / `if not Submittal: return False`, and `ProductionOrder = self.env.get('ps.production.order')` / `if not ProductionOrder: return False` | winning a new opportunity with both add-ons installed: neither a submittal nor a production order is created | create the draft submittal and the draft production order | not executed | CrmLeads.WonAsWrittenCreatesNeither | CrmLeads.CreateProjectFromWon |
