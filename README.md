# UPS shipping-quote engine, modelled in Dafny

The system quotes UPS services for a shipment between two cities. For every service in the UPS catalog it:

- prices the package with a distance band, a weight category, a fuel surcharge, a premium and a per-service floor;
- computes the CO₂ of the air and ground legs;
- turns the service's transit time into business-day delivery dates;
- awards eco badges relative to the rest of the batch;
- scores each quote for eco-efficiency on a 0–25 point scale with named tiers.

Around that engine sit:

- a small validation framework (range, required, type, pattern and composite validators);
- a coordinate validator, an in-memory persistence store, health checks and a workflow that stops at the first failure;
- output formatters (JSON, table, summary) with format fallback;
- a lazily loaded configuration manager.

The model follows the Python backend, one Dafny module per source file:

| module | file | source |
|---|---|---|
| `Base` | base.dfy | shared values: Python dict/value model, ASCII string helpers, half-up rounding, first-match search |
| `Sorting` | sorting.dfy | the stable sort that Python's `sorted`/`list.sort` provide |
| `UpsServices` | ups_services.dfy | backend/services/ups_services.py |
| `DeliveryCalculator` | delivery_calculator.dfy | backend/utils/delivery_calculator.py |
| `CarbonCalculator` | carbon_calculator.dfy | backend/utils/carbon_calculator.py |
| `QuoteGenerator` | quote_generator.dfy | backend/services/quote_generator.py |
| `EcoEfficiencyScorer` | eco_efficiency_scorer.dfy | backend/utils/eco_efficiency_scorer.py |
| `Shipping` | shipping.dfy | backend/models/shipping.py |
| `DataModels` | data_models.dfy | backend/models/data_models.py |
| `Validators` | validators.dfy | backend/utils/validators.py |
| `Implementations` | implementations.dfy | backend/services/implementations.py |
| `Formatters` | formatters.dfy | backend/utils/formatters.py |
| `Config` | config.dfy | backend/config.py |

How the Python maps to Dafny:

- Python floats are `real`.
- A date is an `int` day number with Monday = 0.
- A Python dict is an ordered sequence of key/value pairs.
- Pydantic field constraints are predicates that list the errors a model would raise.
- Code that loops and appends is a `method` with loop invariants, proved against a specification function. This covers adding business days, alternative dates, quote collection, carbon comparison, score normalisation and the validators.
- Objects that update their fields are classes. These are the validators, the persistence store, the services, the multi-format formatter and the configuration manager.

Three behaviours of the code are worth knowing before reading the model:

- Pricing uses a step distance multiplier (0.8 / 1.0 / 1.3, backend/services/quote_generator.py:115-124).
- Quotes are sorted by (ETA hours, total CO₂, cost), as at backend/services/quote_generator.py:300-304.
- The Ground service has priority 6 (backend/services/ups_services.py:96), although a `ShippingQuote` accepts at most 5 (backend/models/shipping.py:192). The lemmas `Shipping.GroundPriorityOutOfRange` and `Shipping.GroundQuoteRefusesResponse` record this clash.

Where the code has a defect listed under "## Findings", the model states the code as written in one member and proves the discrepancy, then uses the corrected definition elsewhere. This holds for the eco-efficiency adjustment and tiers, the validator's type check and the formatter's default format. The members affected are named at the head of their lines under "## Left out".

## Model

| member | source | states |
|---|---|---|
| UpsServices.CatalogShape | backend/services/ups_services.py:7-105 | the six services' transport mixes add up to 100 %, priorities number them 1..6 in table order, and each later service is slower and cheaper, with distinct keys, codes and names |
| UpsServices.CatalogByDeliveryTime | backend/services/ups_services.py:7-105 | the service table runs from Next Day Air Early to Ground in strictly increasing ETA |
| UpsServices.DemoRouteKeys | backend/services/ups_services.py:108-275 | every demo route has a non-empty key |
| UpsServices.DemoRouteMeans | backend/services/quote_generator.py:196-198 | the means over the fifteen demo routes are 38275/15 km by air, 45022/15 km by ground and 7.00 per kg |
| UpsServices.GetServiceByCode | backend/services/ups_services.py:318-326 | returns the first catalog service with that code; None exactly when no service has it |
| UpsServices.ServiceWithCode | backend/services/ups_services.py:322-326 | first-match search over any service list: the result has the code and no earlier service has it; None exactly when none has it |
| UpsServices.GetServiceByName | backend/services/ups_services.py:328-336 | returns the first catalog service with that name; None exactly when no service has it |
| UpsServices.ServiceWithName | backend/services/ups_services.py:332-336 | first-match search by name over any service list, with the same guarantees |
| UpsServices.GroundServiceCode | backend/services/ups_services.py:318-326 | code "03" finds UPS Ground |
| UpsServices.ServicesByPriorityIsCatalogOrder | backend/services/ups_services.py:338-344 | the priority-sorted list is sorted by priority and equals the catalog order |
| UpsServices.NumberedByPriorityIsSorted | backend/services/ups_services.py:343-344 | services numbered 1, 2, 3, ... in order are sorted, and the stable sort returns them unchanged |
| UpsServices.EcoFriendlyOf | backend/services/ups_services.py:350-355 | keeps exactly the services with an eco-friendly or carbon-neutral badge |
| UpsServices.GetEcoFriendlyServices | backend/services/ups_services.py:346-355 | the loop returns the badge filter of the catalog |
| UpsServices.EcoFriendlyServicesAreTheSlowOnes | backend/services/ups_services.py:346-355 | the eco-friendly services are exactly 2nd Day Air, 3-Day Select and Ground, in that order |
| UpsServices.FindRouteByCities | backend/services/ups_services.py:357-367 | a found route is a demo route whose origin and destination cities match, ignoring case |
| UpsServices.FindRouteIn | backend/services/ups_services.py:363-367 | a found route is in the list and its cities match |
| UpsServices.FindRouteInFirst | backend/services/ups_services.py:363-367 | nothing is found exactly when no route matches; otherwise the first match is returned |
| UpsServices.FindRouteByCitiesFirst | backend/services/ups_services.py:357-367 | the same first-match iff for the demo routes |
| UpsServices.FindRouteIgnoresCase | backend/services/ups_services.py:364-365 | "new york" to "LOS ANGELES" finds the New York to Los Angeles route |
| UpsServices.FindRouteIsDirectional | backend/services/ups_services.py:364-365 | Los Angeles to New York finds nothing: the match is one-directional |
| UpsServices.DemoRouteFacts | backend/services/ups_services.py:386-391 | a demo route is not a fallback, has a key, and is found again by that key |
| UpsServices.GetRouteByKey | backend/services/ups_services.py:386-391 | a found route has that key; None exactly when no demo route has it |
| UpsServices.GetAllRouteKeys | backend/services/ups_services.py:379-384 | one key per demo route, and each key finds a route |
| UpsServices.WeightCategoryFor | backend/services/ups_services.py:369-377 | Envelope up to 0.5 kg, Small up to 2, Medium up to 10, Large beyond (each an iff) |
| UpsServices.CostAdjustmentMonotone | backend/services/ups_services.py:279-309 | a heavier package never gets a smaller (and never a non-positive) cost adjustment |
| UpsServices.BaseShippingCost | backend/services/ups_services.py:400-417 | the cost is the adjusted weight-times-rate product or the 5.00 floor, whichever is larger |
| UpsServices.CarbonEmissions | backend/services/ups_services.py:419-446 | each leg is its mode factor times distance, weight and share, rounded to grams; the rounded total is within 0.001 kg of air + ground; CO2 per km is weight times the blended factor for a positive distance and 0 otherwise; all four figures are non-negative for non-negative inputs |
| UpsServices.EmissionFacts | backend/services/ups_services.py:431-445 | the two legs sum to distance × weight × blended factor; dividing by a positive distance leaves weight × blended factor; rounded non-negative figures stay non-negative |
| UpsServices.CarbonEmissionsMonotoneInWeight | backend/services/ups_services.py:419-446 | on a fixed leg the total is non-negative and never falls as weight rises |
| UpsServices.DetermineEcoBadge | backend/services/ups_services.py:448-458 | carbon neutral iff at most 10 % air and 0.25 kg/kg; eco-friendly iff not that but at most 50 % air and 0.60 kg/kg |
| UpsServices.EcoBadgeMonotone | backend/services/ups_services.py:448-458 | less carbon and less air never give a weaker badge |
| UpsServices.DeliveryEtaHours | backend/services/ups_services.py:460-486 | the base ETA plus the complexity and size adjustments, floored at 1 hour |
| UpsServices.EtaMonotoneInWeight | backend/services/ups_services.py:460-486 | a heavier package never gets an earlier ETA |
| UpsServices.BusinessDaysFromHours | backend/services/ups_services.py:495-509 | at least one day |
| UpsServices.BusinessDaysFromHoursMonotone | backend/services/ups_services.py:495-509 | more hours never mean fewer days |
| UpsServices.ValidateServiceAvailability | backend/services/ups_services.py:518-546 | an unknown code gives only the not-found error; otherwise the weight and Alaska/Hawaii errors are reported exactly when their conditions hold; valid iff no error |
| UpsServices.CheckRestrictions | backend/services/ups_services.py:536-544 | the over-68 kg error for codes 14 and 01, and the Alaska/Hawaii error for codes 14 and 13, each exactly when its condition holds |
| UpsServices.ValidateRouteFeasibility | backend/services/ups_services.py:549-569 | valid iff both ZIPs match the 5-digit (+4) pattern and differ; each error appears exactly when its check fails |
| UpsServices.ZipPatternExamples | backend/services/ups_services.py:556-557 | "10001" and "90210-1234" match; "1000", "1000A" and "10001-12" do not |
| DeliveryCalculator.WeekdayNext | backend/utils/delivery_calculator.py:13-23 | consecutive days have consecutive weekdays, Sunday wrapping to Monday |
| DeliveryCalculator.NextBusinessDay | backend/utils/delivery_calculator.py:48-59 | the first business day strictly after the date, at most three days on, with no business day skipped |
| DeliveryCalculator.AddBusinessDays | backend/utils/delivery_calculator.py:26-45 | the day-by-day walk ends on the n-th following business day (the start date itself when n <= 0) |
| DeliveryCalculator.BusinessDaysAfterCounts | backend/utils/delivery_calculator.py:26-45 | for n >= 1 the result is a later business day with exactly n business days after the start up to and including it |
| DeliveryCalculator.GetNextBusinessDay | backend/utils/delivery_calculator.py:48-59 | the next business day, later than the date even when the date is itself a business day |
| DeliveryCalculator.EnsureBusinessDay | backend/utils/delivery_calculator.py:62-78 | a business day stays; a Saturday or Sunday moves to the following Monday, skipping no business day |
| DeliveryCalculator.ServiceBusinessDays | backend/utils/delivery_calculator.py:88-95 | the table's day count for a listed service key, 3 for any other key |
| DeliveryCalculator.CalculateDeliveryDate | backend/utils/delivery_calculator.py:100-133 | the delivery date is a business day after the effective ship date with exactly the service's number of business days up to it |
| DeliveryCalculator.NextDayFromFridayIsMonday | backend/utils/delivery_calculator.py:100-133 | a one-day service shipped on a Friday arrives the following Monday |
| DeliveryCalculator.NextDayFromWeekendIsTuesday | backend/utils/delivery_calculator.py:115-128 | a one-day service shipped at the weekend leaves on Monday and arrives on Tuesday |
| DeliveryCalculator.CalculateAllServiceDeliveryDates | backend/utils/delivery_calculator.py:150-178 | one entry per service key of the table, each holding that key's delivery date and day count |
| DeliveryCalculator.DatesForKeys | backend/utils/delivery_calculator.py:163-176 | the loop over any key table keeps exactly its keys, each mapped to its delivery date and day count |
| DeliveryCalculator.DeliveryCommitmentWithDate | backend/utils/delivery_calculator.py:180-206 | the formatted delivery date followed by the commitment's time part |
| DeliveryCalculator.CommitmentTimePartSingleBy | backend/utils/delivery_calculator.py:199-204 | when "by" occurs once, the time part is " by" followed by the rest of the commitment |
| DeliveryCalculator.CommitmentTimePartIsCaseSensitive | backend/utils/delivery_calculator.py:199-204 | the split on "by" is case-sensitive: a commitment without a lower-case "by" keeps no time part |
| DeliveryCalculator.ValidateDeliveryDateRequest | backend/utils/delivery_calculator.py:219-250 | accepted iff on or after the earliest delivery date and a business day; "too early" iff before that date, checked first |
| DeliveryCalculator.AlternativeDeliveryDates | backend/utils/delivery_calculator.py:252-287 | count dates (none for a non-positive count): the standard delivery date, then each the next business day after the one before, strictly increasing and all business days |
| DeliveryCalculator.ChainIncreasing | backend/utils/delivery_calculator.py:275-285 | dates each the next business day after the one before strictly increase |
| CarbonCalculator.ValidateCarbonInputs | backend/utils/carbon_calculator.py:164-185 | no error iff the route key is non-empty, the weight is in (0, 70] and the service has a name and both transport shares; the route-key error comes first, then the weight error |
| CarbonCalculator.RouteDistances | backend/utils/carbon_calculator.py:88-105 | a listed route's own air and ground distances; the demo means for a FALLBACK_ key; an error iff the key is neither |
| CarbonCalculator.EfficiencyFactor | backend/utils/carbon_calculator.py:150-162 | the ground factor when the lower-cased name contains "ground"; otherwise the express factor iff it contains "next day", "early" or "express"; otherwise 1.0 |
| CarbonCalculator.NextDayEfficiency | backend/utils/carbon_calculator.py:157-160 | a "UPS Next Day ..." name with no g runs at the express factor |
| CarbonCalculator.PlainEfficiency | backend/utils/carbon_calculator.py:157-162 | a name with no g, no x and no e or no r runs at the standard factor 1.0 |
| CarbonCalculator.GroundEfficiency | backend/utils/carbon_calculator.py:157-158 | a "UPS Ground" name runs at the ground factor |
| CarbonCalculator.Breakdown | backend/utils/carbon_calculator.py:104-148 | the breakdown carries the service name, route key and weight it was computed for |
| CarbonCalculator.BreakdownTotal | backend/utils/carbon_calculator.py:110-136 | the reported total is the air plus the efficiency-scaled truck emissions, rounded to grams |
| CarbonCalculator.RawTotalLinearInWeight | backend/utils/carbon_calculator.py:110-122 | the unrounded total is the weight times the total for 1 kg |
| CarbonCalculator.FootprintMonotoneInWeight | backend/utils/carbon_calculator.py:110-136 | on non-negative distances and shares the total is never negative and never falls as weight rises |
| CarbonCalculator.CalculateCarbonFootprint | backend/utils/carbon_calculator.py:64-148 | the first input error if any, else the route error, else the breakdown on the resolved distances (Ok iff inputs and route are good) |
| CarbonCalculator.CatalogServiceFootprint | backend/utils/carbon_calculator.py:64-148 | for any catalog service the footprint succeeds iff the route key, the weight and the route are good |
| CarbonCalculator.AssignEcoBadge | backend/utils/carbon_calculator.py:286-303 | most eco-friendly iff the total is the batch minimum; eco-friendly iff not and at most the mean; high emission iff neither and within 10 % of the maximum |
| CarbonCalculator.SavingsWithinRange | backend/utils/carbon_calculator.py:251-254 | savings lie between 0 and 100 % for a total in [0, max], and are 0 for the maximum |
| CarbonCalculator.SavingsAntitone | backend/utils/carbon_calculator.py:251-254 | a smaller total saves at least as much |
| CarbonCalculator.NamesAtMost | backend/utils/carbon_calculator.py:263-267 | exactly the names of results whose total is at most the mean |
| CarbonCalculator.CollectEntries | backend/utils/carbon_calculator.py:216-230 | the loop collects one entry per service whose footprint succeeds, in catalog order, skipping failures |
| CarbonCalculator.EntryStep | backend/utils/carbon_calculator.py:218-230 | one pass: the service's entry when its footprint succeeds, nothing when it fails |
| CarbonCalculator.CarbonEntriesLength | backend/utils/carbon_calculator.py:216-233 | every service yields an entry when route key, weight and route are good, and none does otherwise |
| CarbonCalculator.CarbonEntriesNames | backend/utils/carbon_calculator.py:222-227 | with good inputs entry i carries service i's key and name |
| CarbonCalculator.AnnotateAll | backend/utils/carbon_calculator.py:247-260 | each sorted entry gets its savings and badge against the batch minimum, maximum and mean, in order |
| CarbonCalculator.Summarise | backend/utils/carbon_calculator.py:236-284 | the results are the entries sorted by total (a permutation), each annotated, with lowest/highest service, rounded min, max, mean and range, and the eco-friendly names |
| CarbonCalculator.SortedBatch | backend/utils/carbon_calculator.py:236-243 | after the sort the batch minimum is the first total and the maximum the last |
| CarbonCalculator.CompareCarbon | backend/utils/carbon_calculator.py:198-284 | an error iff the route key, weight or route is bad; otherwise one result per catalog service, forming the comparison of their entries |
| CarbonCalculator.ComparisonExtremes | backend/utils/carbon_calculator.py:247-284 | the lowest emitter is labelled most eco-friendly, is listed as eco-friendly and saves the most; the highest saves nothing |
| CarbonCalculator.MeanAtLeastMin | backend/utils/carbon_calculator.py:242-244 | the mean of a non-empty batch is at least its minimum |
| QuoteGenerator.PricingTables | backend/services/quote_generator.py:32-49 | every premium lies in [0.85, 1.15] and every price floor is a whole number of dollars in [15, 95], with 1.0 and 15.0 for an unlisted key |
| QuoteGenerator.GroundPricing | backend/services/quote_generator.py:38-48 | UPS Ground gets its own 0.85 premium and 15.00 floor |
| QuoteGenerator.DistanceMultiplier | backend/services/quote_generator.py:115-124 | short band iff under 1000 km, long band iff over 3000 km, medium band iff in [1000, 3000] |
| QuoteGenerator.FactorChainMonotone | backend/services/quote_generator.py:89-106 | the price before the floor is weight x rate x service multiplier x distance band x category adjustment x 1.125 x premium, and grows with weight and adjustment |
| QuoteGenerator.ShippingCostFloor | backend/services/quote_generator.py:105-113 | a quote never costs less than the service minimum (at least 15.00), is the minimum when the product does not clear it, and the product rounded to cents when it does |
| QuoteGenerator.ShippingCostMonotoneInWeight | backend/services/quote_generator.py:62-113 | on a fixed route and service a heavier package never costs less |
| QuoteGenerator.CostIgnoresLegOrder | backend/services/quote_generator.py:86 | only the longer leg is priced: exchanging the air and ground distances does not change the cost |
| QuoteGenerator.SwapRoute | backend/services/quote_generator.py:172-181 | origin and destination exchanged, every other field kept |
| QuoteGenerator.RouteLookup | backend/services/quote_generator.py:136-170 | the route in the asked direction under its key; failing that the reverse route turned round under its key; none iff neither exists; a found route always runs from origin to destination |
| QuoteGenerator.RouteLookupSymmetric | backend/services/quote_generator.py:136-170 | a route is found from A to B iff one is found from B to A, and a one-way listing answers B to A with the swapped route under the same key |
| QuoteGenerator.FallbackKey | backend/services/quote_generator.py:255 | the key is FALLBACK_, the upper-cased origin character by character, "_", then the upper-cased destination, and nothing else |
| QuoteGenerator.FallbackRoute | backend/services/quote_generator.py:183-211 | a fallback route of moderate complexity, 4 ground days, on placeholder places named after the cities |
| QuoteGenerator.FallbackRouteFigures | backend/services/quote_generator.py:195-205 | the fallback route is 2552 km by air and 3001 km by ground at 7.00 per kg, so it is priced in the long-distance band |
| QuoteGenerator.ResolveRoute | backend/services/quote_generator.py:251-256 | the looked-up route, else the fallback route under its FALLBACK_ key |
| QuoteGenerator.ResolvedKeyAccepted | backend/services/quote_generator.py:251-273 | the key a quote request resolves to is non-empty and accepted by the carbon calculator |
| QuoteGenerator.ValidateQuoteInputs | backend/services/quote_generator.py:355-377 | each error is reported exactly when its check is the first to fail: origin blank; destination blank; same city after strip and lower-casing; weight not positive; weight over 70; no error iff all pass |
| QuoteGenerator.CollectQuotes | backend/services/quote_generator.py:260-294 | the loop yields the per-service quotes in catalog order |
| QuoteGenerator.QuoteStep | backend/services/quote_generator.py:262-294 | one pass: the service's quote, or nothing when its footprint fails |
| QuoteGenerator.QuoteForAccepted | backend/services/quote_generator.py:262-290 | with a good route key and weight a service yields exactly its own quote, priced by the cost formula and carrying its footprint |
| QuoteGenerator.AllQuotesGenerated | backend/services/quote_generator.py:260-297 | with a good route key and weight no service is skipped: quote i is service i's |
| QuoteGenerator.QuoteLeTotalPreorder | backend/services/quote_generator.py:300-304 | the (ETA, CO2, cost) ordering is total and transitive, so the stable sort is well defined |
| Sorting.SortBy | backend/services/quote_generator.py:300-304 | `sorted` returns a rearrangement of its input: same length, same multiset of elements |
| Sorting.SortBySorted | backend/services/quote_generator.py:300-304 | with a total preorder as key comparison, the result of `sorted` is in order |
| Sorting.SortBySortedInput | backend/services/quote_generator.py:300-304 | a list already in order comes back unchanged |
| QuoteGenerator.LookupAnnotation | backend/services/quote_generator.py:391-397 | none iff no result has the name; otherwise the badge and savings of the last result with that name |
| QuoteGenerator.BuildCarbonLookup | backend/services/quote_generator.py:391-397 | the built map answers every name as the lookup function does |
| QuoteGenerator.BadgeFrom | backend/services/quote_generator.py:401-407 | a quote gets its service's annotation, or "standard" with 0.0 savings |
| QuoteGenerator.AddEcoBadges | backend/services/quote_generator.py:379-407 | without carbon results the quotes are unchanged; otherwise each quote, in place, gains the eco fields of its service name and nothing else changes |
| QuoteGenerator.FirstMinIndex | backend/services/quote_generator.py:340-341 | the index of the first minimum, as Python's min with a key returns |
| QuoteGenerator.FirstMinIsMin | backend/services/quote_generator.py:337-341 | the first minimum is the minimum, and every value lies between minimum and maximum |
| QuoteGenerator.SummaryFacts | backend/services/quote_generator.py:335-342 | the summary counts every quote, names the first as fastest, brackets every price and footprint, and names the first cheapest and first lowest-CO2 quotes |
| QuoteGenerator.RouteInfoOf | backend/services/quote_generator.py:325-334 | the total distance is the longer of the two legs |
| QuoteGenerator.GenerateShippingQuotes | backend/services/quote_generator.py:225-353 | the first validation failure, else a response; a request that passes validation always gets one, whose parts are the sorted quotes, the comparison, the eco fields, the route info and the summary |
| QuoteGenerator.QuotesOnRoute | backend/services/quote_generator.py:258-353 | after the route is resolved: an error only when no quote was collected, else the response for the request |
| QuoteGenerator.Annotated | backend/services/quote_generator.py:316 | the quotes keep their order and gain their eco fields |
| QuoteGenerator.CollectedInOrder | backend/services/quote_generator.py:260-304 | services listed in strictly increasing ETA are all quoted and the sort keeps their order |
| QuoteGenerator.QuotesKeepServiceOrder | backend/services/quote_generator.py:300-339 | the sorted quotes of such services keep their order and the first service is named fastest |
| QuoteGenerator.QuotesInCatalogOrder | backend/services/quote_generator.py:225-353 | for a valid request there are six quotes, quote i is catalog service i, and the fastest is Next Day Air Early |
| QuoteGenerator.ResultsListEveryService | backend/services/quote_generator.py:391-402 | results holding every service's footprint, in any order, list every service by name |
| QuoteGenerator.EveryQuoteBadged | backend/services/quote_generator.py:307-316 | for a valid request the carbon comparison succeeds and every quote finds its service in it, so none falls back to "standard" |
| EcoEfficiencyScorer.NewScorer | backend/utils/eco_efficiency_scorer.py:25-63 | no weights give the 70/30 defaults; given weights are kept iff they sum to 1 within 0.001, and refused otherwise |
| EcoEfficiencyScorer.NormalizeInverted | backend/utils/eco_efficiency_scorer.py:149-201 | the loop computes (max - v) / (max - min) for each value, or 1.0 everywhere when all values are equal, one score per value |
| EcoEfficiencyScorer.NormalizedInUnit | backend/utils/eco_efficiency_scorer.py:149-201 | every normalised score lies in [0, 1] |
| EcoEfficiencyScorer.NormalizedAllEqual | backend/utils/eco_efficiency_scorer.py:165-166 | a batch of equal values scores 1.0 everywhere |
| EcoEfficiencyScorer.NormalizedExtremes | backend/utils/eco_efficiency_scorer.py:162-172 | the lowest value scores 1.0 and, when the values differ, the highest scores 0.0 |
| EcoEfficiencyScorer.NormalizedAntitone | backend/utils/eco_efficiency_scorer.py:169-172 | a lower value never scores lower |
| EcoEfficiencyScorer.SaverBranchNeedsEarly | backend/utils/eco_efficiency_scorer.py:233-241 | as written, the +0.25 branch is taken only by a name containing both "Next Day Air Saver" and "Early" |
| EcoEfficiencyScorer.SaverGetsNextDayAirPenalty | backend/utils/eco_efficiency_scorer.py:236-238 | as written, "UPS Next Day Air Saver" gets the -0.08 Next Day Air adjustment |
| EcoEfficiencyScorer.AdjustmentCorrection | backend/utils/eco_efficiency_scorer.py:233-252 | the corrected adjustment agrees with the written one except on Saver names, which get +0.25 |
| EcoEfficiencyScorer.CatalogAdjustments | backend/utils/eco_efficiency_scorer.py:233-241 | Early -0.15, Saver +0.25 and Next Day Air -0.08 under the corrected adjustment |
| EcoEfficiencyScorer.SlowServiceAdjustments | backend/utils/eco_efficiency_scorer.py:242-250 | 2nd Day Air +0.28, 3-Day Select +0.30, Ground +0.32 |
| EcoEfficiencyScorer.ApplyBusinessLogic | backend/utils/eco_efficiency_scorer.py:203-260 | the adjusted weighted score times 25, clamped to [0, 25]: unchanged inside, 0 below, 25 above; with the corrected adjustment |
| EcoEfficiencyScorer.PointsMonotone | backend/utils/eco_efficiency_scorer.py:225-258 | with non-negative weights a better cost or environmental score never lowers the points |
| EcoEfficiencyScorer.TierGapsUnranked | backend/utils/eco_efficiency_scorer.py:45-52 | as written, a score on the 0-25 scale is unranked iff it lies strictly between two integer ranges |
| EcoEfficiencyScorer.TierGapExample | backend/utils/eco_efficiency_scorer.py:272-276 | as written, 4.5 and 20.5 are unranked |
| EcoEfficiencyScorer.DetermineTier | backend/utils/eco_efficiency_scorer.py:262-276 | corrected tiers: unranked iff the score is off the 0-25 scale |
| EcoEfficiencyScorer.DetermineTierCorrection | backend/utils/eco_efficiency_scorer.py:262-276 | the corrected tiers agree with the written ones wherever those rank, and never fall as the score rises |
| EcoEfficiencyScorer.PerKgValues | backend/utils/eco_efficiency_scorer.py:93-101 | the loop divides each quote's cost and CO2 by the weight, index by index |
| EcoEfficiencyScorer.CalculateScores | backend/utils/eco_efficiency_scorer.py:69-147 | an empty batch, then a non-positive weight, are refused; otherwise one score per quote, aligned by index; scores use the corrected adjustment and tiers |
| EcoEfficiencyScorer.BuildScores | backend/utils/eco_efficiency_scorer.py:108-142 | the scoring loop maps each input to its score, in order; scores use the corrected adjustment and tiers |
| EcoEfficiencyScorer.ScoresOfAt | backend/utils/eco_efficiency_scorer.py:108-142 | score i is built from quote i's per-kg figures and normalised scores; with the corrected adjustment and tiers |
| EcoEfficiencyScorer.ScoresAligned | backend/utils/eco_efficiency_scorer.py:96-140 | every score carries its quote's per-kg figures, points in [0, 25] and a tier on the scale (corrected tiers) |
| EcoEfficiencyScorer.CheaperScoresHigher | backend/utils/eco_efficiency_scorer.py:104-105 | within a batch a cheaper quote never gets a lower cost score, a lower-carbon one never a lower environmental score |
| EcoEfficiencyScorer.FirstMaxIndex | backend/utils/eco_efficiency_scorer.py:340 | the index of the first maximum, as Python's max with a key returns |
| EcoEfficiencyScorer.TierCounts | backend/utils/eco_efficiency_scorer.py:343-345 | exactly the tiers that occur, each counted as often as it occurs |
| EcoEfficiencyScorer.TierCountsSumToLength | backend/utils/eco_efficiency_scorer.py:343-345 | the tier counts add up to the number of scores |
| EcoEfficiencyScorer.GetScoringSummary | backend/utils/eco_efficiency_scorer.py:323-365 | nothing iff no scores; else the point range and mean, the first best entry's first explanation sentence, points and tier, the tier counts and the weights |
| EcoEfficiencyScorer.BestIsFirstMaximum | backend/utils/eco_efficiency_scorer.py:340-352 | the best entry holds the maximum, no earlier entry reaches it, and all points lie in the range |
| EcoEfficiencyScorer.BestNameIsTierSentence | backend/utils/eco_efficiency_scorer.py:299-321 | the summary's "service name" is the tier's explanation sentence, never the service's name |
| EcoEfficiencyScorer.TierSentenceHasNoDot | backend/utils/eco_efficiency_scorer.py:310-319 | no tier sentence contains a full stop |
| Shipping.GtLe | backend/models/shipping.py:72-75 | a Field(gt, le) bound reports at most one error, none iff the value lies in (lo, hi] |
| Shipping.GeLe | backend/models/shipping.py:145-146 | a Field(ge, le) bound reports at most one error, none iff the value lies in [lo, hi] |
| Shipping.Ge | backend/models/shipping.py:163-166 | a Field(ge) bound reports no error iff the value is at least lo |
| Shipping.Length | backend/models/shipping.py:42-44 | a Field(min_length, max_length) bound reports no error iff the length is within them |
| Shipping.StateErrors | backend/models/shipping.py:47-52 | a state code passes iff it has two characters and is upper-case text in Python's isupper sense |
| Shipping.ZipErrors | backend/models/shipping.py:54-60 | a ZIP passes iff it has 5 to 10 characters and matches the 5-digit (+4) pattern |
| Shipping.LocationErrors | backend/models/shipping.py:36-60 | a location is accepted iff its city has 1 to 100 characters, its state passes and its ZIP passes |
| Shipping.StateCodeExamples | backend/models/shipping.py:50 | two upper-case letters pass; a lower-case letter or two digits are refused |
| Shipping.DimensionErrors | backend/models/shipping.py:73-75 | an optional dimension is accepted iff absent or in (0, 150] |
| Shipping.PackageErrors | backend/models/shipping.py:66-84 | a package is accepted iff its weight is in (0, 70], each given dimension in (0, 150] and any declared value non-negative; validate_weight adds nothing |
| Shipping.DimensionalWeightPresence | backend/models/shipping.py:86-95 | on an accepted package the dimensional weight exists iff all three dimensions were given, and is then positive |
| Shipping.BillableWeightBounds | backend/models/shipping.py:97-104 | the billable weight is never below the actual weight, is the larger of the two weights when all dimensions are given, and is the actual weight otherwise |
| Shipping.TransportMixErrors | backend/models/shipping.py:139-154 | a mix is accepted iff both shares lie in [0, 100] and sum to 100 within 0.01 |
| Shipping.CarbonFootprintErrorsAsWritten | backend/models/shipping.py:157-175 | as written, a footprint is accepted iff its four figures are non-negative: the sum check never runs |
| Shipping.CarbonFootprintSumUnchecked | backend/models/shipping.py:163-175 | as written, a total of 5 kg made of 1 kg plus 1 kg is accepted |
| Shipping.CarbonFootprintErrors | backend/models/shipping.py:168-175 | corrected: accepted iff the figures are non-negative and the total equals the sum of the parts within 0.001 |
| Shipping.RouteInfoErrorsAsWritten | backend/models/shipping.py:212-235 | as written, a route is accepted iff its bounds hold: the distance check never runs |
| Shipping.RouteDistanceUnchecked | backend/models/shipping.py:220-235 | as written, a 10000 km route made of 100 km by air and 100 km by ground is accepted |
| Shipping.RouteInfoErrors | backend/models/shipping.py:226-235 | corrected: accepted iff the bounds hold and the total lies between the longer leg and 1.2 times both legs together |
| Shipping.RouteInfoBounds | backend/models/shipping.py:231-233 | an accepted route is at least as long as either leg and at most 20 % longer than both together |
| Shipping.QuoteErrors | backend/models/shipping.py:178-197 | a quote is accepted iff its name and code are non-empty, ETA positive, cost non-negative, priority in 1..5 and its footprint and mix accepted |
| Shipping.GroundPriorityOutOfRange | backend/models/shipping.py:192 | a quote carrying UPS Ground's catalog priority 6 is refused |
| Shipping.CostPerKg | backend/models/shipping.py:199-203 | cost over weight for a positive weight, 0 otherwise |
| Shipping.CarbonEfficiency | backend/models/shipping.py:205-209 | CO2 over cost for a positive cost, 0 otherwise |
| Shipping.RatiosNonNegative | backend/models/shipping.py:199-209 | both ratios of an accepted quote are non-negative |
| Shipping.RangeErrors | backend/models/shipping.py:250-257 | a min/max range is accepted iff both keys are present and min is not above max |
| Shipping.ComparisonErrors | backend/models/shipping.py:238-257 | a carbon comparison is accepted iff its range holds min and max in order and its average is not negative |
| Shipping.QuoteListErrors | backend/models/shipping.py:267 | a list of quotes is accepted iff every quote in it is |
| Shipping.ResponseErrors | backend/models/shipping.py:260-295 | a response is accepted iff it has at least one quote, its quote list, carbon comparison and route (as written) are accepted, and the price range holds min and max in order |
| Shipping.ResponseAcceptance | backend/models/shipping.py:266-295 | the same acceptance spelled out per quote: every quote in the list must be accepted |
| Shipping.GroundQuoteRefusesResponse | backend/models/shipping.py:192 | a response holding a quote with UPS Ground's catalog priority is refused |
| Shipping.QuoteOrderings | backend/models/shipping.py:297-319 | each ordering returns the response's quotes, rearranged, with its key never decreasing |
| DataModels.InputDict | backend/models/data_models.py:12-25 | the record's dict holds the source and destination locations under their field names |
| DataModels.ValidateCoordinates | backend/models/data_models.py:27-38 | a non-dict is refused first, then a dict of numbers lacking a coordinate; accepted iff a dict of numbers with latitude in [-90, 90] and longitude in [-180, 180], and then returned unchanged |
| DataModels.MakeInput | backend/models/data_models.py:6-38 | a record is built iff both locations pass, and holds them as given; otherwise one or two refusals |
| DataModels.CoordinateBoundsInclusive | backend/models/data_models.py:34-37 | latitudes of 90 and -90 and longitudes of -180 and 180 are accepted |
| DataModels.CoordinateBoundsExceeded | backend/models/data_models.py:34-37 | a latitude of 90.5 or a longitude of -180.5 is refused with its coordinate's message |
| DataModels.InputHasCoordinates | backend/models/data_models.py:32-33 | both locations of a built record name latitude and longitude |
| Validators.PatternRule | backend/utils/validators.py:111-115 | the rule keeps the pattern; a missing or empty message gives "Field '<field>' does not match required pattern"; a non-empty one is kept |
| Validators.RangeErrors | backend/utils/validators.py:25-45 | at most one error: absent field, then non-numeric value, then out of range; none iff the field is a number in [lo, hi] |
| Validators.RequiredErrorsExact | backend/utils/validators.py:62-70 | the errors name exactly the required fields that are absent or None; none iff every required field holds a value |
| Validators.TypeErrorsExact | backend/utils/validators.py:87-98 | only present fields of the wrong type are reported; none iff every present field has its expected type |
| Validators.TypeErrorsAsWritten | backend/utils/validators.py:87-98 | as written, the loop raises AttributeError exactly when some expected type is a tuple, the field is present and its value does not match; otherwise the result is the corrected list of errors |
| Validators.CoordinateTypeCheckRaises | backend/utils/validators.py:94-96 | as written, a text latitude checked against (int, float) raises AttributeError |
| Validators.CoordinateTypeCheckReports | backend/utils/validators.py:94-96 | corrected, a text latitude is reported as "must be of type int or float" |
| Validators.PatternErrors | backend/utils/validators.py:117-134 | an absent field passes; otherwise one error unless the value is text that the pattern matches at its start |
| Validators.AllErrorsEmptyIff | backend/utils/validators.py:151-161 | a composite records nothing iff every child passes |
| Validators.Validator.Validate | backend/utils/validators.py:25-134 | clears the errors, records the rule's errors for this input, passes iff none; the type rule uses the corrected check |
| Validators.Validator.GetValidationErrors | backend/utils/validators.py:47-49 | a copy of the errors of the latest call |
| Validators.Validator.CheckRange | backend/utils/validators.py:29-45 | the NumericRangeValidator checks in source order |
| Validators.Validator.CheckRequired | backend/utils/validators.py:66-70 | the RequiredFieldValidator loop |
| Validators.Validator.CheckTypes | backend/utils/validators.py:91-98 | the DataTypeValidator loop, with the corrected type check that reports instead of raising |
| Validators.Validator.CheckPattern | backend/utils/validators.py:121-134 | the PatternValidator checks in source order |
| Validators.CompositeValidator.Validate | backend/utils/validators.py:151-161 | runs every child without stopping, gathers the failing children's errors in order, passes iff every child passes; children use the corrected type check |
| Validators.CompositeValidator.AddValidator | backend/utils/validators.py:167-169 | appends the child and keeps the errors |
| Validators.AllErrorsOfFour | backend/utils/validators.py:151-161 | a composite of four children records their errors one after another |
| Validators.CreateCoordinateValidator | backend/utils/validators.py:179-189 | a fresh composite of the presence, type, latitude and longitude checks, with no errors |
| Validators.CoordinateRulesAccept | backend/utils/validators.py:179-189 | the coordinate validator passes iff both coordinates are numbers (a bool counts) with latitude in [-90, 90] and longitude in [-180, 180] |
| Validators.CreateLocationValidator | backend/utils/validators.py:192-199 | a fresh composite requiring source and destination locations and checking that both are dicts |
| Validators.CompositeValidator.GetValidationErrors | backend/utils/validators.py:163-165 | a copy of the gathered errors |
| Implementations.FieldErrors | backend/services/implementations.py:41-50 | a missing field is reported once as missing and its format is not checked; a present field is reported iff it is not a dict holding latitude and longitude; at most one error |
| Implementations.CoordinateErrorsExact | backend/services/implementations.py:38-62 | the errors are the source field's then the destination field's; none iff both locations are present and well-formed; at most two |
| Implementations.EmptyRecordMissesBoth | backend/services/implementations.py:42-46 | an empty record is reported missing twice, source then destination |
| Implementations.BuiltInputPassesCoordinateValidator | backend/services/implementations.py:38-62 | every input record the data model accepts passes the coordinate validator |
| Implementations.CoordinateValidator.Validate | backend/services/implementations.py:38-52 | clears the errors, records the coordinate errors, and passes iff none were recorded |
| Implementations.CoordinateValidator.GetValidationErrors | backend/services/implementations.py:54-56 | returns the errors of the latest call |
| Implementations.ServiceErrorsShape | backend/services/implementations.py:187-201 | each validator contributes the whole report, so the aggregate is empty iff there is no validator or the record passes |
| Implementations.ValidationService.ValidateInput | backend/services/implementations.py:187-201 | the errors of the failing validators in order; valid iff none; every validator's own errors are set to this record's |
| Implementations.ValidationService.AddValidator | backend/services/implementations.py:203-205 | appends the validator |
| Implementations.BuiltInputValid | backend/services/implementations.py:187-201 | a record the data model accepts is reported valid by a single coordinate validator |
| Implementations.RecordOf | backend/services/implementations.py:150-153 | the stored record maps 'data' to the data and 'saved_at' to the time, and nothing else |
| Implementations.InMemoryPersistence.Save | backend/services/implementations.py:147-154 | stores exactly one new record under a fresh identifier numbered one past the store's size; nothing earlier is overwritten |
| Implementations.InMemoryPersistence.Retrieve | backend/services/implementations.py:156-158 | the record stored under the id, or None iff there is none |
| Implementations.PersistenceService.SaveCalculation | backend/services/implementations.py:235-237 | saves exactly one new record through the provider |
| Implementations.PersistenceService.RetrieveCalculation | backend/services/implementations.py:239-242 | the stored record, or {} for an unknown id |
| Implementations.StatusOf | backend/services/implementations.py:256-258 | a report's text status, "unknown" when it has none, refused when it is not text |
| Implementations.HealthService.CheckSystemHealth | backend/services/implementations.py:250-262 | one status per checker in registration order, each with the checker's name and whole report; fails iff some report's status is not text |
| Implementations.HealthService.AddHealthChecker | backend/services/implementations.py:264-266 | appends the checker |
| Implementations.OrchestrationService.ExecuteWorkflow | backend/services/implementations.py:275-303 | invalid input returns the errors with no data and leaves the store untouched; valid input returns the calculated result and its fresh id after exactly one save |
| Formatters.Put | backend/utils/formatters.py:170-172 | assigning a key of an ordered mapping either keeps the length (existing key) or appends the new pair at the end |
| Formatters.PutGet | backend/utils/formatters.py:170-172 | after `d[k] = v`, `d[k]` reads `v` and every other key reads as before |
| Formatters.PutKeys | backend/utils/formatters.py:170-172 | the keys after `d[k] = v` are exactly the old keys plus `k` |
| Formatters.Lookup | backend/utils/formatters.py:154 | a lookup finds a value exactly when the key is registered |
| Formatters.TableRows | backend/utils/formatters.py:77-94 | an empty dict gives no rows; otherwise exactly three rows, the first being the keys joined by the column separator |
| Formatters.SeparatorUnderHeader | backend/utils/formatters.py:83-88 | each separator cell is as many dashes as its header has characters, so the dash row is exactly as long as the header row |
| Formatters.ValueRowUnderHeader | backend/utils/formatters.py:91-92 | the value row is str(data[key]) for each header key in header order, joined by the column separator |
| Formatters.JoinSameLengths | backend/utils/formatters.py:87 | joining cells of pairwise equal length gives rows of equal length |
| Formatters.Spaced | backend/utils/formatters.py:124 | `replace('_', ' ')` keeps the length and turns exactly the underscores into spaces |
| Formatters.Title | backend/utils/formatters.py:124 | `title()` keeps length, keeps which positions are letters, and leaves non-letters unchanged |
| Formatters.TitleIdempotent | backend/utils/formatters.py:124 | title-casing an already title-cased key changes nothing |
| Formatters.SummaryLineCount | backend/utils/formatters.py:122-128 | the summary has one line per plain entry and, for a nested dict, a header line plus one line per sub-entry |
| Formatters.GenerateSummary | backend/utils/formatters.py:118-130 | the loop builds exactly the newline-joined summary lines of every entry in order |
| Formatters.Dedup | backend/utils/formatters.py:168 | removing duplicates keeps exactly the same formats and leaves each one once |
| Formatters.AllFormatsMembers | backend/utils/formatters.py:163-168 | a format is supported exactly when some registered formatter lists it |
| Formatters.Selected | backend/utils/formatters.py:149-154 | the chosen format is registered and is either the default or the request's preference; a registered string preference always wins; with a registered default and a hashable preference the lookup never fails |
| Formatters.DecorateNamesFormat | backend/utils/formatters.py:158-159 | the result records the format used under 'selected_format' and keeps every other entry of the formatter's answer |
| Formatters.NewDefault | backend/utils/formatters.py:174-177 | (corrected) the default becomes a format only when a formatter is registered under it, otherwise it is unchanged, so the default always stays registered |
| Formatters.TextDefaultBreaksFallback | backend/utils/formatters.py:174-177 | on the standard formatters "text" is accepted as default (it is a supported format) and a request without preference then fails the lookup at line 154 |
| Formatters.CorrectedFallbackSucceeds | backend/utils/formatters.py:147-154 | with the corrected default, every request with a hashable or absent preference finds a formatter |
| Formatters.MultiFormatFormatter.constructor | backend/utils/formatters.py:139-145 | the json, table and summary formatters are registered and json is the default |
| Formatters.MultiFormatFormatter.GetSupportedFormats | backend/utils/formatters.py:163-168 | the result lists exactly the formats some formatter supports, each once |
| Formatters.MultiFormatFormatter.FormatOutput | backend/utils/formatters.py:147-161 | output of the selected formatter plus the supported formats and the selected name; failure only for a preference that cannot be hashed |
| Formatters.MultiFormatFormatter.AddFormatter | backend/utils/formatters.py:170-172 | registers or replaces the formatter under the name and keeps the default |
| Formatters.MultiFormatFormatter.SetDefaultFormat | backend/utils/formatters.py:174-177 | the formatters are unchanged and the default is updated as NewDefault says, keeping the default registered; corrected to accept registered keys only |
| Formatters.ErrorCode | backend/utils/formatters.py:202 | a missing or empty code becomes 'GENERAL_ERROR', any other code is kept |
| Formatters.ErrorResponse | backend/utils/formatters.py:194-206 | an error response is unsuccessful, carries no data and holds the message and code under 'error' |
| Formatters.SuccessResponse | backend/utils/formatters.py:209-218 | a success response is successful and carries the message and the data as given |
| Config.ConfigIssues | backend/config.py:163-181 | each of the three issues is reported exactly when its condition holds: port outside 1..65535, a blank application name, a secret key under 32 characters |
| Config.DefaultConfigurationHasOneIssue | backend/config.py:73-179 | the 20-character default secret key makes the short-key warning the only issue of the default configuration |
| Config.ServerDict | backend/config.py:151 | the server section never holds a secret key |
| Config.ApplicationDict | backend/config.py:152 | the application section never holds a secret key |
| Config.CorsDict | backend/config.py:153 | the CORS section never holds a secret key |
| Config.LoggingDict | backend/config.py:154 | the logging section never holds a secret key |
| Config.SecuritySummary | backend/config.py:155-159 | the security section shows only the algorithm and token expiry, never the secret key |
| Config.ExternalServicesDict | backend/config.py:160 | the external-services section never holds a secret key |
| Config.AllConfig | backend/config.py:145-161 | six sections, each a dict; the security section is the summary; no section and no top-level entry holds the secret key |
| Config.ConfigurationManager.constructor | backend/config.py:95-101 | every configuration starts unloaded |
| Config.ConfigurationManager.Server | backend/config.py:103-108 | lazy loading: the first access stores the defaults, later accesses return the stored value; other sections are untouched |
| Config.ConfigurationManager.Application | backend/config.py:110-115 | lazy loading of the application section, other sections untouched |
| Config.ConfigurationManager.Cors | backend/config.py:117-122 | lazy loading of the CORS section, other sections untouched |
| Config.ConfigurationManager.Logging | backend/config.py:124-129 | lazy loading of the logging section, other sections untouched |
| Config.ConfigurationManager.Security | backend/config.py:131-136 | lazy loading of the security section, other sections untouched |
| Config.ConfigurationManager.ExternalServices | backend/config.py:138-143 | lazy loading of the external-services section, other sections untouched |
| Config.ConfigurationManager.GetAllConfig | backend/config.py:145-161 | loads every section and returns the consolidated view of the defaults |
| Config.ConfigurationManager.ValidateConfiguration | backend/config.py:163-181 | loads server, application and security only and returns their issues, which for the defaults is the single short-key warning |

## Left out

- Python's `round()` rounds binary floats half-to-even. The model rounds exact reals half-up (`Base.RoundTo`); the results differ only on exact ties.
- `str()` of numbers and values is left abstract: the `show` and `render` parameters stand in for it. Texts are compared through those parameters, never by their digits.
- Timestamps (`datetime.now()`, `datetime.utcnow()`, `quote_valid_until`, `formatted_at`, `saved_at`) are left out or passed in as parameters. The `ShippingRequest` check that a delivery date lies in the future (backend/models/shipping.py:131-137) needs the clock, so it is not modelled. Neither are the timestamp defaults of `ShippingResponse`.
- Logging and printing are left out everywhere.
- The haversine distance and `CalculationService` (backend/services/implementations.py:65-116 and 208-228) use trigonometry on floats. The workflow takes the calculation as the `calculate` parameter.
- `DistanceCalculator`, `StandardFormatter` and `SystemHealthChecker` are stubs that return constants. A health checker is modelled by its component name and its report.
- `json.dumps` is the `dumps` parameter; the indent width is not modelled.
- The `calendar` day and month names in delivery commitments are the `formatDate` parameter.
- Regular expressions (ZIP code, state code, pattern validators) are explicit character predicates. `PatternValidator` takes its pattern as a predicate on the start of the text.
- `Formatters.MultiFormatFormatter.GetSupportedFormats`: `list(set(...))` has no defined order. The model returns each format once, in order of first mention.
- `Formatters.Selected`: a preference that is a list or dict is unhashable, and the membership test at backend/utils/formatters.py:151 raises TypeError. The model returns an error for it.
- `Implementations.StatusOf`: pydantic would turn a numeric health status into text. The model refuses any non-text status.
- Pydantic's conversion of numeric strings into numbers is not modelled. A text value is a type error wherever a number is expected.
- `Implementations.ValidationService` holds `CoordinateValidator`s only, the one validator kind the backend registers with it.
- `Validators.CompositeValidator` has as children the four validators of backend/utils/validators.py. Nested composites are not modelled.
- Persistence ids are a structured `CalcId` (a running number and a timestamp string) instead of the text `calc_<n>_<timestamp>`. A retrieve with a malformed id text cannot be expressed.
- Configuration objects are values, not Python objects. "Returns the same object" is modelled as returning the stored value.
- `Shipping.ResponseErrors` reports a nested quote, comparison or route error under the nested field's own name, not under pydantic's location path. The check that `quote_valid_until` follows `quote_timestamp` (backend/models/shipping.py:281-286) needs the clock and is not modelled.
- `EcoEfficiencyScorer.ApplyBusinessLogic` uses the corrected `Adjustment` of "## Findings": a Saver service gets +0.25 where the code gives -0.08. The code as written is `AdjustmentAsWritten`, related to the correction by `AdjustmentCorrection`.
- `EcoEfficiencyScorer.CalculateScores` builds its scores with the corrected adjustment and the corrected, gap-free `DetermineTier` of "## Findings". A weighted score such as 4.5 gets a tier where the code gives "unranked" (`DetermineTierAsWritten`, related by `DetermineTierCorrection`).
- `EcoEfficiencyScorer.BuildScores` uses the same corrected adjustment and tiers as `CalculateScores`.
- `EcoEfficiencyScorer.ScoresOfAt` states score i as the corrected score, with the corrected adjustment and tiers.
- `EcoEfficiencyScorer.ScoresAligned` states that every tier is ranked. This holds for the corrected tiers only; the code as written leaves scores in the tier gaps "unranked".
- `Validators.Validator.CheckTypes` uses the corrected type check of "## Findings". A wrong-typed value under a tuple type is reported as an error naming "int or float", where the code raises AttributeError (`Validators.TypeErrorsAsWritten`).
- `Validators.Validator.Validate` uses the corrected type check through `CheckTypes`, so it returns false where the code raises AttributeError.
- `Validators.CompositeValidator.Validate` runs children that use the corrected type check, so it gathers an error where the code raises AttributeError.
- `Formatters.MultiFormatFormatter.SetDefaultFormat` uses the corrected default check of "## Findings": it accepts only a registered formatter key. The code accepts any supported format, so `set_default_format("text")` changes the default there and is ignored here. The class invariant that the default is registered holds only for this correction (`Formatters.NewDefaultAsWritten` states the code as written).
- `Formatters.MultiFormatFormatter.FormatOutput` relies on that invariant. Under the code as written, a request without a preference after `set_default_format("text")` raises KeyError (`Formatters.TextDefaultBreaksFallback`).
- Strings are ASCII: `lower()`, `upper()`, `strip()` and `title()` are modelled on ASCII letters and spaces only.
- The HTTP layer, the factory and abstract-interface modules, and the test scripts of the backend are not part of this model.

## Findings

| source | as written | input that shows it | evidently intended | confidence | as-written member | corrected member |
|---|---|---|---|---|---|---|
| backend/utils/eco_efficiency_scorer.py:233-241 | the "Next Day Air" test precedes the "Next Day Air Saver" test, so the Saver branch (+0.25) can never be reached | service name "UPS Next Day Air Saver" gets -0.08 | the Saver service gets its own +0.25 adjustment | not executed | EcoEfficiencyScorer.SaverGetsNextDayAirPenalty | EcoEfficiencyScorer.AdjustmentCorrection |
| backend/utils/eco_efficiency_scorer.py:272-276 | the tier ranges leave gaps between 4 and 5, 8 and 9, 12 and 13, 16 and 17, 20 and 21, and a score there is "unranked" | score 4.5 | every score in [0, 25] falls in a tier | not executed | EcoEfficiencyScorer.TierGapExample | EcoEfficiencyScorer.DetermineTierCorrection |
| backend/models/shipping.py:168-175 | the total is declared before its parts, so the parts are not yet in `values` and the sum check never runs | total 5.0 with air 1.0 and ground 1.0 is accepted | the total must be within 0.001 of air + ground | not executed | Shipping.CarbonFootprintSumUnchecked | Shipping.CarbonFootprintErrors |
| backend/models/shipping.py:226-235 | the total distance is declared before the legs, so the legs are not yet in `values` and the range check never runs | total 10000 km with legs of 100 km and 100 km is accepted | the total must lie in [max(air, ground), 1.2 × (air + ground)] | not executed | Shipping.RouteDistanceUnchecked | Shipping.RouteInfoBounds |
| backend/utils/validators.py:94-96 | the error message reads `expected_type.__name__`, which a tuple such as `(int, float)` does not have | a text latitude "north" under the coordinate type rule raises AttributeError instead of being reported | a type error naming the accepted types ("int or float") | not executed | Validators.CoordinateTypeCheckRaises | Validators.CoordinateTypeCheckReports |
| backend/utils/formatters.py:174-177 | the new default is checked against the supported formats, which include "text", while the fallback at line 154 looks it up among the formatter keys | set_default_format("text") on the standard formatter, then a request without preference raises KeyError | only a registered formatter can become the default | not executed | Formatters.TextDefaultBreaksFallback | Formatters.CorrectedFallbackSucceeds |
