/** The quote engine: UPS-style pricing, the two-way route lookup with its
    fallback route, input validation, and the assembly of one quote per
    service, sorted by speed, carbon and price, with eco badges and a
    summary. */
module QuoteGenerator {
  import opened Base
  import Sorting
  import UpsServices
  import CarbonCalculator

  // ---------------------------------------------------------------------
  // PricingFactors
  // ---------------------------------------------------------------------

  const ShortDistanceMultiplier: real := 0.8
  const MediumDistanceMultiplier: real := 1.0
  const LongDistanceMultiplier: real := 1.3
  const ShortDistanceThreshold: real := 1000.0
  const LongDistanceThreshold: real := 3000.0
  const FuelSurchargePercentage: real := 12.5

  /** PREMIUM_MULTIPLIERS.get(service_key, 1.0) */
  function PremiumMultiplier(serviceKey: string): real
  {
    if serviceKey == "UPS_NEXT_DAY_AIR_EARLY" then 1.15
    else if serviceKey == "UPS_NEXT_DAY_AIR" then 1.05
    else if serviceKey == "UPS_NEXT_DAY_AIR_SAVER" then 1.0
    else if serviceKey == "UPS_2ND_DAY_AIR" then 0.95
    else if serviceKey == "UPS_3_DAY_SELECT" then 0.90
    else if serviceKey == "UPS_GROUND" then 0.85
    else 1.0
  }

  /** MINIMUM_COSTS.get(service_key, 15.0) */
  function MinimumCost(serviceKey: string): real
  {
    if serviceKey == "UPS_NEXT_DAY_AIR_EARLY" then 95.0
    else if serviceKey == "UPS_NEXT_DAY_AIR" then 75.0
    else if serviceKey == "UPS_NEXT_DAY_AIR_SAVER" then 65.0
    else if serviceKey == "UPS_2ND_DAY_AIR" then 35.0
    else if serviceKey == "UPS_3_DAY_SELECT" then 25.0
    else if serviceKey == "UPS_GROUND" then 15.0
    else 15.0
  }

  /** Every premium is a factor between 0.85 and 1.15 and every price floor
      is a whole number of dollars from 15 to 95, listed or not. */
  lemma PricingTables(serviceKey: string)
    ensures 0.85 <= PremiumMultiplier(serviceKey) <= 1.15
    ensures 15.0 <= MinimumCost(serviceKey) <= 95.0
    ensures (MinimumCost(serviceKey).Floor as real) == MinimumCost(serviceKey)
  {
  }

  /** A catalog key gets its own premium and floor. */
  lemma GroundPricing()
    ensures PremiumMultiplier("UPS_GROUND") == 0.85 && MinimumCost("UPS_GROUND") == 15.0
  {
  }

  // ---------------------------------------------------------------------
  // ShippingCostCalculator
  // ---------------------------------------------------------------------

  /** _get_distance_multiplier: three bands, the middle one closed at both ends. */
  function DistanceMultiplier(distanceKm: real): (m: real)
    ensures m == ShortDistanceMultiplier <==> distanceKm < ShortDistanceThreshold
    ensures m == LongDistanceMultiplier <==> distanceKm > LongDistanceThreshold
    ensures m == MediumDistanceMultiplier <==> ShortDistanceThreshold <= distanceKm <= LongDistanceThreshold
  {
    if distanceKm < ShortDistanceThreshold then ShortDistanceMultiplier
    else if distanceKm > LongDistanceThreshold then LongDistanceMultiplier
    else MediumDistanceMultiplier
  }

  /** The distance a route is priced on: the longer of its two legs. */
  function PricedDistance(route: UpsServices.Route): real
  {
    Max(route.airKm, route.groundKm)
  }

  /** The pricing chain on its factors: weight times rate times service
      multiplier, scaled by the distance band and the weight category, plus
      the fuel surcharge, times the premium. */
  function FactorChain(weightKg: real, perKg: real, multiplier: real, band: real, adjustment: real, premium: real): real
  {
    var base := weightKg * perKg * multiplier * band * adjustment;
    var withFuel := base + base * (FuelSurchargePercentage / 100.0);
    withFuel * premium
  }

  /** The cost before the price floor. */
  function UnflooredCost(route: UpsServices.Route, weightKg: real, multiplier: real, serviceKey: string): real
  {
    FactorChain(weightKg, route.baseCostPerKg, multiplier, DistanceMultiplier(PricedDistance(route)),
                UpsServices.CostAdjustment(UpsServices.WeightCategoryFor(weightKg)), PremiumMultiplier(serviceKey))
  }

  /** calculate_shipping_cost: the cost floored at the service minimum and
      rounded to cents. */
  function ShippingCost(route: UpsServices.Route, weightKg: real, multiplier: real, serviceKey: string): real
  {
    RoundTo(Max(UnflooredCost(route, weightKg, multiplier, serviceKey), MinimumCost(serviceKey)), 100.0)
  }

  /** The surcharge is 12.5%, so the chain is the product of its factors
      and 1.125; with non-negative factors it grows with the weight and
      with the category adjustment. */
  lemma FactorChainMonotone(w1: real, w2: real, perKg: real, multiplier: real, band: real,
                            a1: real, a2: real, premium: real)
    requires 0.0 <= w1 <= w2 && 0.0 <= a1 <= a2
    requires perKg >= 0.0 && multiplier >= 0.0 && band >= 0.0 && premium >= 0.0
    ensures FactorChain(w1, perKg, multiplier, band, a1, premium)
            == w1 * perKg * multiplier * band * a1 * 1.125 * premium
    ensures FactorChain(w1, perKg, multiplier, band, a1, premium)
            <= FactorChain(w2, perKg, multiplier, band, a2, premium)
  {
    var f := perKg * multiplier * band;
    var p := 1.125 * premium;
    assert f >= 0.0 && p >= 0.0;
    assert FactorChain(w1, perKg, multiplier, band, a1, premium) == (w1 * f) * a1 * p;
    assert FactorChain(w2, perKg, multiplier, band, a2, premium) == (w2 * f) * a2 * p;
    MulMonotone(w1, w2, f);
    MulMonotone(w1 * f, w2 * f, a1);
    MulMonotone(a1, a2, w2 * f);
    MulMonotone(w1 * f * a1, w2 * f * a2, p);
  }

  /** A quote never costs less than the service minimum (15.00 for a key
      without a listed minimum), and costs exactly the rounded product when
      that clears the minimum. */
  lemma ShippingCostFloor(route: UpsServices.Route, weightKg: real, multiplier: real, serviceKey: string)
    ensures ShippingCost(route, weightKg, multiplier, serviceKey) >= MinimumCost(serviceKey) >= 15.0
    ensures UnflooredCost(route, weightKg, multiplier, serviceKey) <= MinimumCost(serviceKey) ==>
              ShippingCost(route, weightKg, multiplier, serviceKey) == MinimumCost(serviceKey)
    ensures UnflooredCost(route, weightKg, multiplier, serviceKey) >= MinimumCost(serviceKey) ==>
              ShippingCost(route, weightKg, multiplier, serviceKey)
              == RoundTo(UnflooredCost(route, weightKg, multiplier, serviceKey), 100.0)
  {
    var m := MinimumCost(serviceKey);
    PricingTables(serviceKey);
    WholeRoundsToItself(m);
    RoundToMonotone(m, Max(UnflooredCost(route, weightKg, multiplier, serviceKey), m), 100.0);
  }

  lemma WholeRoundsToItself(m: real)
    requires (m.Floor as real) == m
    ensures RoundTo(m, 100.0) == m
  {
    var n := m.Floor;
    assert m * 100.0 + 0.5 == (100 * n) as real + 0.5;
    assert (m * 100.0 + 0.5).Floor == 100 * n;
  }

  /** With the route and the service fixed, a heavier package never costs
      less: every factor is non-negative and the weight-category adjustment
      grows with the weight. */
  lemma ShippingCostMonotoneInWeight(route: UpsServices.Route, w1: real, w2: real, multiplier: real, serviceKey: string)
    requires 0.0 <= w1 <= w2
    requires route.baseCostPerKg >= 0.0 && multiplier >= 0.0
    ensures ShippingCost(route, w1, multiplier, serviceKey) <= ShippingCost(route, w2, multiplier, serviceKey)
  {
    var a1 := UpsServices.CostAdjustment(UpsServices.WeightCategoryFor(w1));
    var a2 := UpsServices.CostAdjustment(UpsServices.WeightCategoryFor(w2));
    var band := DistanceMultiplier(PricedDistance(route));
    var premium := PremiumMultiplier(serviceKey);
    UpsServices.CostAdjustmentMonotone(w1, w2);
    PricingTables(serviceKey);
    FactorChainMonotone(w1, w2, route.baseCostPerKg, multiplier, band, a1, a2, premium);
    var m := MinimumCost(serviceKey);
    RoundToMonotone(Max(UnflooredCost(route, w1, multiplier, serviceKey), m),
                    Max(UnflooredCost(route, w2, multiplier, serviceKey), m), 100.0);
  }

  /** Only the longer leg is priced: exchanging the air and ground
      distances leaves the cost unchanged. */
  lemma CostIgnoresLegOrder(route: UpsServices.Route, weightKg: real, multiplier: real, serviceKey: string)
    ensures ShippingCost(route.(airKm := route.groundKm, groundKm := route.airKm), weightKg, multiplier, serviceKey)
            == ShippingCost(route, weightKg, multiplier, serviceKey)
  {
    var swapped := route.(airKm := route.groundKm, groundKm := route.airKm);
    assert PricedDistance(swapped) == PricedDistance(route);
    assert UnflooredCost(swapped, weightKg, multiplier, serviceKey) == UnflooredCost(route, weightKg, multiplier, serviceKey);
  }

  // ---------------------------------------------------------------------
  // RouteManager
  // ---------------------------------------------------------------------

  /** _swap_route_direction: a copy with origin and destination exchanged. */
  function SwapRoute(route: UpsServices.Route): (s: UpsServices.Route)
    ensures s.origin == route.destination && s.destination == route.origin
    ensures s.key == route.key && s.airKm == route.airKm && s.groundKm == route.groundKm
            && s.baseCostPerKg == route.baseCostPerKg && s.complexity == route.complexity
            && s.groundDays == route.groundDays && s.isFallback == route.isFallback
  {
    route.(origin := route.destination, destination := route.origin)
  }

  /** route_lookup: the demo route from origin to destination; failing
      that, the demo route from destination to origin, turned round; else
      nothing. */
  function RouteLookup(origin: string, destination: string): (r: Option<(string, UpsServices.Route)>)
    ensures UpsServices.FindRouteByCities(origin, destination).Some? ==>
              r == Some((UpsServices.FindRouteByCities(origin, destination).value.key,
                         UpsServices.FindRouteByCities(origin, destination).value))
    ensures UpsServices.FindRouteByCities(origin, destination).None?
            && UpsServices.FindRouteByCities(destination, origin).Some? ==>
              r == Some((UpsServices.FindRouteByCities(destination, origin).value.key,
                         SwapRoute(UpsServices.FindRouteByCities(destination, origin).value)))
    ensures r.None? <==> UpsServices.FindRouteByCities(origin, destination).None?
                         && UpsServices.FindRouteByCities(destination, origin).None?
    ensures r.Some? ==> UpsServices.CitiesMatch(r.value.1, origin, destination) && r.value.0 == r.value.1.key
  {
    match UpsServices.FindRouteByCities(origin, destination)
    case Some(route) => Some((route.key, route))
    case None =>
      match UpsServices.FindRouteByCities(destination, origin)
      case Some(route) => Some((route.key, SwapRoute(route)))
      case None => None
  }

  /** The lookup works both ways round: a route is found from A to B
      exactly when one is found from B to A, and when the table lists only
      the A-to-B direction, the B-to-A answer is that route turned round
      under the same key. */
  lemma RouteLookupSymmetric(a: string, b: string)
    ensures RouteLookup(a, b).Some? <==> RouteLookup(b, a).Some?
    ensures UpsServices.FindRouteByCities(b, a).None? && RouteLookup(a, b).Some? ==>
              RouteLookup(b, a) == Some((RouteLookup(a, b).value.0, SwapRoute(RouteLookup(a, b).value.1)))
  {
  }

  /** f"FALLBACK_{origin.upper()}_{destination.upper()}" */
  function FallbackKey(origin: string, destination: string): (k: string)
    ensures StartsWith(k, "FALLBACK_") && |k| == 10 + |origin| + |destination|
    ensures forall i :: 0 <= i < |origin| ==> k[9 + i] == UpperChar(origin[i])
    ensures k[9 + |origin|] == '_'
    ensures forall i :: 0 <= i < |destination| ==> k[10 + |origin| + i] == UpperChar(destination[i])
  {
    var k := "FALLBACK_" + Upper(origin) + "_" + Upper(destination);
    assert forall i :: 0 <= i < |origin| ==> k[9 + i] == Upper(origin)[i];
    assert forall i :: 0 <= i < |destination| ==> k[10 + |origin| + i] == Upper(destination)[i];
    k
  }

  /** get_fallback_route_data: the demo-route means, rounded to whole
      kilometres and to cents per kilogram, on placeholder places. */
  function FallbackRoute(origin: string, destination: string): (r: UpsServices.Route)
    ensures r.isFallback && r.complexity == "moderate" && r.groundDays == 4
    ensures r.origin == UpsServices.Place(origin, "XX", "00000")
    ensures r.destination == UpsServices.Place(destination, "XX", "00000")
  {
    UpsServices.Route(
      FallbackKey(origin, destination),
      UpsServices.Place(origin, "XX", "00000"), UpsServices.Place(destination, "XX", "00000"),
      RoundTo(UpsServices.MeanAirKm(), 1.0), RoundTo(UpsServices.MeanGroundKm(), 1.0),
      RoundTo(UpsServices.MeanBaseCostPerKg(), 100.0), "moderate", 4, true)
  }

  /** The fallback route is 2552 km by air and 3001 km by ground at 7.00
      per kg, so it is always priced in the long-distance band. */
  lemma FallbackRouteFigures(origin: string, destination: string)
    ensures FallbackRoute(origin, destination).airKm == 2552.0
    ensures FallbackRoute(origin, destination).groundKm == 3001.0
    ensures FallbackRoute(origin, destination).baseCostPerKg == 7.0
    ensures DistanceMultiplier(PricedDistance(FallbackRoute(origin, destination))) == LongDistanceMultiplier
  {
    UpsServices.DemoRouteMeans();
    assert (38275.0 / 15.0 + 0.5).Floor == 2552;
    assert (45022.0 / 15.0 + 0.5).Floor == 3001;
    assert (7.0 * 100.0 + 0.5).Floor == 700;
  }

  /** The route key and route a quote request is priced on: the looked-up
      route, else the fallback route under its FALLBACK_ key. */
  function ResolveRoute(origin: string, destination: string): (r: (string, UpsServices.Route))
    ensures RouteLookup(origin, destination).Some? ==> r == RouteLookup(origin, destination).value
    ensures RouteLookup(origin, destination).None? ==>
              r == (FallbackKey(origin, destination), FallbackRoute(origin, destination))
  {
    match RouteLookup(origin, destination)
    case Some(found) => found
    case None => (FallbackKey(origin, destination), FallbackRoute(origin, destination))
  }

  /** The carbon calculator accepts every key the quote engine resolves:
      a demo route's key names a demo route, and the fallback key carries
      the FALLBACK_ prefix. */
  lemma ResolvedKeyAccepted(origin: string, destination: string)
    ensures ResolveRoute(origin, destination).0 != []
    ensures CarbonCalculator.RouteDistances(ResolveRoute(origin, destination).0).Ok?
  {
    var key := ResolveRoute(origin, destination).0;
    var direct := UpsServices.FindRouteByCities(origin, destination);
    var reverse := UpsServices.FindRouteByCities(destination, origin);
    if direct.Some? {
      UpsServices.DemoRouteFacts(direct.value);
    } else if reverse.Some? {
      UpsServices.DemoRouteFacts(reverse.value);
    } else {
      assert StartsWith(key, "FALLBACK_");
    }
  }

  // ---------------------------------------------------------------------
  // Input validation
  // ---------------------------------------------------------------------

  datatype QuoteError =
    | OriginMissing
    | DestinationMissing
    | SameCity
    | WeightNotPositive
    | WeightOverLimit
    | NoQuotesGenerated

  /** _validate_quote_inputs: the first failing check, or None. */
  function ValidateQuoteInputs(origin: string, destination: string, weightKg: real): (r: Option<QuoteError>)
    ensures r.None? <==> !AllSpace(origin) && !AllSpace(destination)
                         && Lower(Strip(origin)) != Lower(Strip(destination))
                         && 0.0 < weightKg <= 70.0
    ensures r == Some(OriginMissing) <==> AllSpace(origin)
    ensures r == Some(DestinationMissing) <==> !AllSpace(origin) && AllSpace(destination)
    ensures r == Some(SameCity) <==>
              !AllSpace(origin) && !AllSpace(destination) && Lower(Strip(origin)) == Lower(Strip(destination))
    ensures r == Some(WeightNotPositive) <==>
              !AllSpace(origin) && !AllSpace(destination) && Lower(Strip(origin)) != Lower(Strip(destination))
              && weightKg <= 0.0
    ensures r == Some(WeightOverLimit) <==>
              !AllSpace(origin) && !AllSpace(destination) && Lower(Strip(origin)) != Lower(Strip(destination))
              && weightKg > 70.0
    ensures r.Some? ==> r.value != NoQuotesGenerated
  {
    StripEmptyIffBlank(origin);
    StripEmptyIffBlank(destination);
    if origin == [] || |Strip(origin)| == 0 then Some(OriginMissing)
    else if destination == [] || |Strip(destination)| == 0 then Some(DestinationMissing)
    else if Lower(Strip(origin)) == Lower(Strip(destination)) then Some(SameCity)
    else if weightKg <= 0.0 then Some(WeightNotPositive)
    else if weightKg > 70.0 then Some(WeightOverLimit)
    else None
  }

  // ---------------------------------------------------------------------
  // Quotes
  // ---------------------------------------------------------------------

  /** One entry of `quotes` before the eco fields are added. */
  datatype Quote = Quote(
    serviceKey: string,
    serviceName: string,
    serviceCode: string,
    commitment: string,
    etaHours: int,
    costUsd: real,
    carbon: CarbonCalculator.CarbonBreakdown,
    priority: int,
    trackingIncluded: bool,
    insuranceIncluded: bool,
    signatureRequired: bool)

  function Co2(q: Quote): real { q.carbon.totalCo2Kg }

  /** The quote for service `s` once its footprint `b` is known. */
  function MakeQuote(route: UpsServices.Route, weightKg: real, s: UpsServices.Service,
                     b: CarbonCalculator.CarbonBreakdown): Quote
  {
    Quote(s.key, s.name, s.code, s.commitment, s.etaHours,
          ShippingCost(route, weightKg, s.baseCostMultiplier, s.key), b, s.priority,
          s.trackingIncluded, s.insuranceIncluded, s.signatureRequired)
  }

  /** What the loop appends for one service: its quote, or nothing when
      the footprint raises. */
  function QuoteFor(routeKey: string, route: UpsServices.Route, weightKg: real, s: UpsServices.Service): seq<Quote>
  {
    match CarbonCalculator.CalculateCarbonFootprint(routeKey, weightKg, CarbonCalculator.ServiceDataOf(s))
    case Ok(b) => [MakeQuote(route, weightKg, s, b)]
    case Err(_) => []
  }

  /** The quotes collected for `services`, in their order. */
  function QuotesFor(routeKey: string, route: UpsServices.Route, weightKg: real,
                     services: seq<UpsServices.Service>): seq<Quote>
  {
    FlatMap(QuoteMaker(routeKey, route, weightKg), services)
  }

  function QuoteMaker(routeKey: string, route: UpsServices.Route, weightKg: real): UpsServices.Service -> seq<Quote>
  {
    s => QuoteFor(routeKey, route, weightKg, s)
  }

  lemma QuotesForStep(routeKey: string, route: UpsServices.Route, weightKg: real,
                      services: seq<UpsServices.Service>, i: nat)
    requires i < |services|
    ensures QuotesFor(routeKey, route, weightKg, services[..i + 1])
            == QuotesFor(routeKey, route, weightKg, services[..i]) + QuoteFor(routeKey, route, weightKg, services[i])
  {
    FlatMapStep(QuoteMaker(routeKey, route, weightKg), services, i);
  }

  /** The quote loop of generate_shipping_quotes: one step per service, in
      order. */
  method CollectQuotes(routeKey: string, route: UpsServices.Route, weightKg: real, services: seq<UpsServices.Service>)
    returns (quotes: seq<Quote>)
    ensures quotes == QuotesFor(routeKey, route, weightKg, services)
  {
    quotes := [];
    var i := 0;
    while i < |services|
      invariant 0 <= i <= |services|
      invariant quotes == QuotesFor(routeKey, route, weightKg, services[..i])
    {
      QuotesForStep(routeKey, route, weightKg, services, i);
      var step := QuoteStep(routeKey, route, weightKg, services[i]);
      quotes := quotes + step;
      i := i + 1;
    }
    assert services[..|services|] == services;
  }

  /** One pass of the quote loop: price, then footprint, then the quote; a
      service whose footprint raises yields nothing. */
  method QuoteStep(routeKey: string, route: UpsServices.Route, weightKg: real, s: UpsServices.Service)
    returns (step: seq<Quote>)
    ensures step == QuoteFor(routeKey, route, weightKg, s)
  {
    var cost := ShippingCost(route, weightKg, s.baseCostMultiplier, s.key);
    var carbon := CarbonCalculator.CalculateCarbonFootprint(routeKey, weightKg, CarbonCalculator.ServiceDataOf(s));
    if carbon.Ok? {
      step := [Quote(s.key, s.name, s.code, s.commitment, s.etaHours, cost, carbon.value, s.priority,
                     s.trackingIncluded, s.insuranceIncluded, s.signatureRequired)];
    } else {
      step := [];
    }
  }

  /** When the route key and weight pass the carbon checks, a service's
      footprint succeeds and it yields exactly one quote: its own, priced by
      the cost formula. */
  lemma QuoteForAccepted(routeKey: string, route: UpsServices.Route, weightKg: real, s: UpsServices.Service)
    requires routeKey != [] && 0.0 < weightKg <= 70.0 && CarbonCalculator.RouteDistances(routeKey).Ok?
    ensures |QuoteFor(routeKey, route, weightKg, s)| == 1
    ensures var q := QuoteFor(routeKey, route, weightKg, s)[0];
            q.serviceKey == s.key && q.serviceName == s.name && q.etaHours == s.etaHours
            && q.costUsd == ShippingCost(route, weightKg, s.baseCostMultiplier, s.key)
            && CarbonCalculator.CalculateCarbonFootprint(routeKey, weightKg, CarbonCalculator.ServiceDataOf(s)) == Ok(q.carbon)
  {
    CarbonCalculator.CatalogServiceFootprint(routeKey, weightKg, s);
  }

  /** When the route key and weight pass the carbon checks, no service is
      skipped: quote i is service i's. */
  lemma AllQuotesGenerated(routeKey: string, route: UpsServices.Route, weightKg: real,
                             services: seq<UpsServices.Service>)
    requires routeKey != [] && 0.0 < weightKg <= 70.0 && CarbonCalculator.RouteDistances(routeKey).Ok?
    ensures |QuotesFor(routeKey, route, weightKg, services)| == |services|
    ensures forall i :: 0 <= i < |services| ==>
              QuoteFor(routeKey, route, weightKg, services[i]) == [QuotesFor(routeKey, route, weightKg, services)[i]]
  {
    var f := QuoteMaker(routeKey, route, weightKg);
    forall i | 0 <= i < |services| ensures |f(services[i])| == 1 {
      QuoteForAccepted(routeKey, route, weightKg, services[i]);
    }
    FlatMapSingletons(f, services);
  }

  /** The sort key (eta_hours, total_co2_kg, cost_usd), compared
      lexicographically. */
  predicate QuoteLe(a: Quote, b: Quote)
  {
    a.etaHours < b.etaHours
    || (a.etaHours == b.etaHours && (Co2(a) < Co2(b) || (Co2(a) == Co2(b) && a.costUsd <= b.costUsd)))
  }

  lemma QuoteLeTotalPreorder()
    ensures Sorting.TotalPreorder(QuoteLe)
  {
  }

  // ---------------------------------------------------------------------
  // Eco badges
  // ---------------------------------------------------------------------

  /** The two fields _add_eco_badges_to_quotes writes into a quote. */
  datatype EcoAnnotation = EcoAnnotation(badge: CarbonCalculator.CarbonBadge, savingsPct: real)

  /** A quote with its eco fields, or without them when they were never
      written. */
  datatype AnnotatedQuote = AnnotatedQuote(quote: Quote, eco: Option<EcoAnnotation>)

  /** carbon_lookup.get(name): the lookup is built by a dictionary
      comprehension, so the last result with that name wins. */
  function LookupAnnotation(results: seq<CarbonCalculator.CarbonResult>, name: string): (a: Option<EcoAnnotation>)
    ensures a.None? <==> forall i :: 0 <= i < |results| ==> results[i].entry.serviceName != name
    ensures a.Some? ==>
              exists i :: 0 <= i < |results| && results[i].entry.serviceName == name
                          && a.value == EcoAnnotation(results[i].ecoBadge, results[i].savingsPct)
                          && forall j :: i < j < |results| ==> results[j].entry.serviceName != name
  {
    if results == [] then None
    else
      var last := results[|results| - 1];
      if last.entry.serviceName == name then Some(EcoAnnotation(last.ecoBadge, last.savingsPct))
      else
        var init := results[..|results| - 1];
        assert forall i :: 0 <= i < |init| ==> init[i] == results[i];
        LookupAnnotation(init, name)
  }

  /** The eco fields a quote named `name` receives: the looked-up badge and
      savings, else "standard" and 0.0. */
  function AnnotationFor(results: seq<CarbonCalculator.CarbonResult>, name: string): EcoAnnotation
  {
    match LookupAnnotation(results, name)
    case Some(a) => a
    case None => EcoAnnotation(CarbonCalculator.Standard, 0.0)
  }

  /** The carbon_lookup dictionary comprehension. */
  /** The annotation one quote receives: its service's entry in the lookup,
      or a standard badge with no savings. */
  method BadgeFrom(lookup: map<string, EcoAnnotation>, results: seq<CarbonCalculator.CarbonResult>, name: string)
    returns (badge: EcoAnnotation)
    requires forall n :: LookupAnnotation(results, n) == (if n in lookup then Some(lookup[n]) else None)
    ensures badge == AnnotationFor(results, name)
  {
    if name in lookup {
      badge := lookup[name];
    } else {
      badge := EcoAnnotation(CarbonCalculator.Standard, 0.0);
    }
  }

  method BuildCarbonLookup(results: seq<CarbonCalculator.CarbonResult>) returns (lookup: map<string, EcoAnnotation>)
    ensures forall name :: LookupAnnotation(results, name) == (if name in lookup then Some(lookup[name]) else None)
  {
    lookup := map[];
    var i := 0;
    while i < |results|
      invariant 0 <= i <= |results|
      invariant forall name :: LookupAnnotation(results[..i], name) == (if name in lookup then Some(lookup[name]) else None)
    {
      assert results[..i + 1][..i] == results[..i];
      lookup := lookup[results[i].entry.serviceName := EcoAnnotation(results[i].ecoBadge, results[i].savingsPct)];
      i := i + 1;
    }
    assert results[..|results|] == results;
  }

  /** _add_eco_badges_to_quotes: without carbon results nothing changes;
      otherwise every quote gets the eco fields of its service name. */
  method AddEcoBadges(quotes: array<AnnotatedQuote>, comparison: Result<CarbonCalculator.Comparison, string>)
    modifies quotes
    ensures comparison.Err? ==> quotes[..] == old(quotes[..])
    ensures comparison.Ok? ==>
              forall i :: 0 <= i < quotes.Length ==>
                quotes[i] == old(quotes[i]).(eco := Some(AnnotationFor(comparison.value.results,
                                                                       old(quotes[i]).quote.serviceName)))
  {
    if comparison.Err? {
      return;
    }
    var lookup := BuildCarbonLookup(comparison.value.results);
    var i := 0;
    while i < quotes.Length
      invariant 0 <= i <= quotes.Length
      invariant forall j :: 0 <= j < i ==>
                  quotes[j] == old(quotes[j]).(eco := Some(AnnotationFor(comparison.value.results,
                                                                         old(quotes[j]).quote.serviceName)))
      invariant forall j :: i <= j < quotes.Length ==> quotes[j] == old(quotes[j])
    {
      var badge := BadgeFrom(lookup, comparison.value.results, quotes[i].quote.serviceName);
      quotes[i] := quotes[i].(eco := Some(badge));
      i := i + 1;
    }
  }

  // ---------------------------------------------------------------------
  // Summary and route info
  // ---------------------------------------------------------------------

  datatype Summary = Summary(
    totalQuotes: nat,
    minCostUsd: real,
    maxCostUsd: real,
    minCo2Kg: real,
    maxCo2Kg: real,
    fastestService: string,
    cheapestService: string,
    mostEcoFriendly: string)

  datatype RouteInfo = RouteInfo(
    routeKey: string,
    originCity: string,
    destinationCity: string,
    totalDistanceKm: real,
    airKm: real,
    groundKm: real,
    complexity: string,
    isFallback: bool)

  function Costs(qs: seq<Quote>): (r: seq<real>)
    ensures |r| == |qs| && forall i :: 0 <= i < |qs| ==> r[i] == qs[i].costUsd
  {
    seq(|qs|, i requires 0 <= i < |qs| => qs[i].costUsd)
  }

  function Co2s(qs: seq<Quote>): (r: seq<real>)
    ensures |r| == |qs| && forall i :: 0 <= i < |qs| ==> r[i] == Co2(qs[i])
  {
    seq(|qs|, i requires 0 <= i < |qs| => Co2(qs[i]))
  }

  /** min(range(len(s)), key=s.__getitem__): Python's min returns the
      first of several equal minima. */
  function FirstMinIndex(s: seq<real>): (k: nat)
    requires s != []
    ensures k < |s|
    ensures forall j :: 0 <= j < |s| ==> s[k] <= s[j]
    ensures forall j :: 0 <= j < k ==> s[j] > s[k]
  {
    if |s| == 1 then 0
    else
      var k := FirstMinIndex(s[..|s| - 1]);
      assert forall j :: 0 <= j < |s| - 1 ==> s[..|s| - 1][j] == s[j];
      if s[|s| - 1] < s[k] then |s| - 1 else k
  }

  /** The summary block: counts, price and carbon ranges, the first quote
      as the fastest, and the first cheapest and first lowest-carbon quotes. */
  function SummaryOf(qs: seq<Quote>): (s: Summary)
    requires qs != []
  {
    var costs := Costs(qs);
    var co2 := Co2s(qs);
    Summary(|qs|, CarbonCalculator.SeqMin(costs), CarbonCalculator.SeqMax(costs),
            CarbonCalculator.SeqMin(co2), CarbonCalculator.SeqMax(co2),
            qs[0].serviceName, qs[FirstMinIndex(costs)].serviceName, qs[FirstMinIndex(co2)].serviceName)
  }

  /** The first minimum is the minimum, and every element lies between the
      minimum and the maximum. */
  lemma FirstMinIsMin(s: seq<real>)
    requires s != []
    ensures s[FirstMinIndex(s)] == CarbonCalculator.SeqMin(s)
    ensures forall i :: 0 <= i < |s| ==> CarbonCalculator.SeqMin(s) <= s[i] <= CarbonCalculator.SeqMax(s)
  {
    assert forall i :: 0 <= i < |s| ==> s[i] in s;
  }

  /** The summary counts every quote, names the first quote as fastest,
      brackets every price and footprint by its ranges, and names as
      cheapest and as most eco-friendly the first quote attaining the
      minimum price and footprint. */
  lemma SummaryFacts(qs: seq<Quote>)
    requires qs != []
    ensures SummaryOf(qs).totalQuotes == |qs| && SummaryOf(qs).fastestService == qs[0].serviceName
    ensures forall i :: 0 <= i < |qs| ==>
              SummaryOf(qs).minCostUsd <= qs[i].costUsd <= SummaryOf(qs).maxCostUsd
              && SummaryOf(qs).minCo2Kg <= Co2(qs[i]) <= SummaryOf(qs).maxCo2Kg
    ensures var i := FirstMinIndex(Costs(qs));
            qs[i].serviceName == SummaryOf(qs).cheapestService && qs[i].costUsd == SummaryOf(qs).minCostUsd
            && forall j :: 0 <= j < i ==> qs[j].costUsd > SummaryOf(qs).minCostUsd
    ensures var i := FirstMinIndex(Co2s(qs));
            qs[i].serviceName == SummaryOf(qs).mostEcoFriendly && Co2(qs[i]) == SummaryOf(qs).minCo2Kg
            && forall j :: 0 <= j < i ==> Co2(qs[j]) > SummaryOf(qs).minCo2Kg
  {
    FirstMinIsMin(Costs(qs));
    FirstMinIsMin(Co2s(qs));
  }

  /** The route_info block: the raw city names and the priced route. */
  function RouteInfoOf(routeKey: string, origin: string, destination: string, route: UpsServices.Route): (info: RouteInfo)
    ensures info.totalDistanceKm >= info.airKm && info.totalDistanceKm >= info.groundKm
    ensures info.totalDistanceKm == info.airKm || info.totalDistanceKm == info.groundKm
  {
    RouteInfo(routeKey, origin, destination, PricedDistance(route), route.airKm, route.groundKm,
              route.complexity, route.isFallback)
  }

  // ---------------------------------------------------------------------
  // generate_shipping_quotes
  // ---------------------------------------------------------------------

  datatype QuoteResponse = QuoteResponse(
    quotes: seq<AnnotatedQuote>,
    carbonComparison: Result<CarbonCalculator.Comparison, string>,
    routeInfo: RouteInfo,
    summary: Summary)

  function QuotesOf(aqs: seq<AnnotatedQuote>): (qs: seq<Quote>)
    ensures |qs| == |aqs| && forall i :: 0 <= i < |aqs| ==> qs[i] == aqs[i].quote
  {
    seq(|aqs|, i requires 0 <= i < |aqs| => aqs[i].quote)
  }

  /** What generate_shipping_quotes returns for valid input: the quotes
      collected on the resolved route, sorted by (eta, co2, cost); the
      carbon comparison on the same route; every quote carrying its eco
      fields; the route block; and the summary of the sorted quotes. */
  ghost predicate IsResponseFor(resp: QuoteResponse, origin: string, destination: string, weightKg: real)
  {
    var routeKey := ResolveRoute(origin, destination).0;
    var route := ResolveRoute(origin, destination).1;
    var collected := QuotesFor(routeKey, route, weightKg, UpsServices.Services());
    HasSortedQuotes(QuotesOf(resp.quotes), collected)
    && HasComparison(resp.carbonComparison, routeKey, weightKg)
    && HasEcoFields(resp.quotes, resp.carbonComparison)
    && resp.routeInfo == RouteInfoOf(routeKey, origin, destination, route)
    && resp.quotes != [] && resp.summary == SummaryOf(QuotesOf(resp.quotes))
  }

  ghost predicate HasSortedQuotes(qs: seq<Quote>, collected: seq<Quote>)
  {
    qs == Sorting.SortBy(collected, QuoteLe)
    && Sorting.SortedBy(qs, QuoteLe) && multiset(qs) == multiset(collected)
  }

  /** The comparison that carbon_comparison returns for the route key and
      weight: an error exactly when they fail its checks. */
  ghost predicate HasComparison(c: Result<CarbonCalculator.Comparison, string>, routeKey: string, weightKg: real)
  {
    (c.Err? <==> !(routeKey != [] && 0.0 < weightKg <= 70.0 && CarbonCalculator.RouteDistances(routeKey).Ok?))
    && (c.Ok? ==> CarbonCalculator.IsComparisonOf(c.value, CarbonCalculator.CarbonEntries(routeKey, weightKg, UpsServices.Services()),
                                                  routeKey, weightKg))
  }

  ghost predicate HasEcoFields(aqs: seq<AnnotatedQuote>, c: Result<CarbonCalculator.Comparison, string>)
  {
    (c.Err? ==> forall i :: 0 <= i < |aqs| ==> aqs[i].eco.None?)
    && (c.Ok? ==> forall i :: 0 <= i < |aqs| ==>
                    aqs[i].eco == Some(AnnotationFor(c.value.results, aqs[i].quote.serviceName)))
  }

  /** generate_shipping_quotes: the first validation failure, else the
      response; a request that passes validation always gets quotes. */
  method GenerateShippingQuotes(origin: string, destination: string, weightKg: real)
    returns (r: Result<QuoteResponse, QuoteError>)
    ensures ValidateQuoteInputs(origin, destination, weightKg).Some? ==>
              r == Err(ValidateQuoteInputs(origin, destination, weightKg).value)
    ensures ValidateQuoteInputs(origin, destination, weightKg).None? ==> r.Ok?
    ensures r.Ok? ==> IsResponseFor(r.value, origin, destination, weightKg)
  {
    var invalid := ValidateQuoteInputs(origin, destination, weightKg);
    if invalid.Some? {
      return Err(invalid.value);
    }

    var resolved := ResolveRoute(origin, destination);
    var routeKey, route := resolved.0, resolved.1;
    ResolvedKeyAccepted(origin, destination);
    AllQuotesGenerated(routeKey, route, weightKg, UpsServices.Services());
    r := QuotesOnRoute(origin, destination, weightKg, routeKey, route);
  }

  /** Everything after the route is resolved: collect, refuse an empty
      list, sort, compare carbon, add eco fields, summarise. */
  method QuotesOnRoute(origin: string, destination: string, weightKg: real, routeKey: string, route: UpsServices.Route)
    returns (r: Result<QuoteResponse, QuoteError>)
    requires (routeKey, route) == ResolveRoute(origin, destination)
    ensures r.Err? ==> r.error == NoQuotesGenerated && QuotesFor(routeKey, route, weightKg, UpsServices.Services()) == []
    ensures r.Ok? ==> IsResponseFor(r.value, origin, destination, weightKg)
  {
    var quotes := CollectQuotes(routeKey, route, weightKg, UpsServices.Services());
    if |quotes| == 0 {
      return Err(NoQuotesGenerated);
    }

    var sorted := Sorting.SortBy(quotes, QuoteLe);
    QuoteLeTotalPreorder();
    Sorting.SortBySorted(quotes, QuoteLe);

    var comparison := CarbonCalculator.CompareCarbon(routeKey, weightKg);
    var annotated := Annotated(sorted, comparison);
    var info := RouteInfoOf(routeKey, origin, destination, route);
    var resp := QuoteResponse(annotated, comparison, info, SummaryOf(sorted));
    ResponseParts(resp, origin, destination, weightKg, quotes);
    r := Ok(resp);
  }

  lemma ResponseParts(resp: QuoteResponse, origin: string, destination: string, weightKg: real, collected: seq<Quote>)
    requires collected == QuotesFor(ResolveRoute(origin, destination).0, ResolveRoute(origin, destination).1,
                                     weightKg, UpsServices.Services())
    requires collected != [] && HasSortedQuotes(QuotesOf(resp.quotes), collected)
    requires HasComparison(resp.carbonComparison, ResolveRoute(origin, destination).0, weightKg)
    requires HasEcoFields(resp.quotes, resp.carbonComparison)
    requires resp.routeInfo == RouteInfoOf(ResolveRoute(origin, destination).0, origin, destination,
                                           ResolveRoute(origin, destination).1)
    requires resp.summary == SummaryOf(Sorting.SortBy(collected, QuoteLe))
    ensures IsResponseFor(resp, origin, destination, weightKg)
  {
  }

  /** The quotes placed in a fresh list and given their eco fields in place. */
  method Annotated(sorted: seq<Quote>, comparison: Result<CarbonCalculator.Comparison, string>)
    returns (annotated: seq<AnnotatedQuote>)
    ensures QuotesOf(annotated) == sorted
    ensures HasEcoFields(annotated, comparison)
  {
    var list := new AnnotatedQuote[|sorted|](i requires 0 <= i < |sorted| => AnnotatedQuote(sorted[i], None));
    AddEcoBadges(list, comparison);
    annotated := list[..];
  }

  /** When the route key and weight pass the carbon checks, every service
      is quoted, and when the services come in strictly increasing delivery
      time the sort keeps their order. */
  lemma CollectedInOrder(routeKey: string, route: UpsServices.Route, weightKg: real,
                         services: seq<UpsServices.Service>)
    requires routeKey != [] && 0.0 < weightKg <= 70.0 && CarbonCalculator.RouteDistances(routeKey).Ok?
    requires forall i, j :: 0 <= i < j < |services| ==> services[i].etaHours < services[j].etaHours
    ensures |QuotesFor(routeKey, route, weightKg, services)| == |services|
    ensures Sorting.SortBy(QuotesFor(routeKey, route, weightKg, services), QuoteLe)
            == QuotesFor(routeKey, route, weightKg, services)
    ensures forall i :: 0 <= i < |services| ==>
              QuotesFor(routeKey, route, weightKg, services)[i].serviceKey == services[i].key
              && QuotesFor(routeKey, route, weightKg, services)[i].serviceName == services[i].name
  {
    var collected := QuotesFor(routeKey, route, weightKg, services);
    AllQuotesGenerated(routeKey, route, weightKg, services);
    forall i | 0 <= i < |services|
      ensures collected[i].etaHours == services[i].etaHours
      ensures collected[i].serviceKey == services[i].key && collected[i].serviceName == services[i].name
    {
      QuoteForAccepted(routeKey, route, weightKg, services[i]);
    }
    assert Sorting.SortedBy(collected, QuoteLe);
    Sorting.SortBySortedInput(collected, QuoteLe);
  }

  /** Sorted quotes of a batch already in order are that batch: quote i
      is service i's, and the summary names service 0 as fastest. */
  lemma SortedQuotesMatchServices(aqs: seq<AnnotatedQuote>, collected: seq<Quote>, services: seq<UpsServices.Service>)
    requires QuotesOf(aqs) == Sorting.SortBy(collected, QuoteLe)
    requires Sorting.SortBy(collected, QuoteLe) == collected && |collected| == |services|
    requires forall i :: 0 <= i < |services| ==>
               collected[i].serviceKey == services[i].key && collected[i].serviceName == services[i].name
    ensures |aqs| == |services|
    ensures forall i :: 0 <= i < |aqs| ==>
              aqs[i].quote.serviceKey == services[i].key && aqs[i].quote.serviceName == services[i].name
    ensures aqs != [] ==> SummaryOf(QuotesOf(aqs)).fastestService == services[0].name
  {
    assert QuotesOf(aqs) == collected;
    forall i | 0 <= i < |aqs|
      ensures aqs[i].quote.serviceKey == services[i].key && aqs[i].quote.serviceName == services[i].name
    {
      assert aqs[i].quote == collected[i];
    }
    if aqs != [] {
      SummaryFacts(collected);
    }
  }

  /** The sorted quotes of services listed from fastest to slowest, on a
      route key and weight that pass the checks, keep the listing order and
      name the first service as fastest. */
  lemma QuotesKeepServiceOrder(aqs: seq<AnnotatedQuote>, routeKey: string, route: UpsServices.Route, weightKg: real,
                               services: seq<UpsServices.Service>)
    requires routeKey != [] && 0.0 < weightKg <= 70.0 && CarbonCalculator.RouteDistances(routeKey).Ok?
    requires forall i, j :: 0 <= i < j < |services| ==> services[i].etaHours < services[j].etaHours
    requires QuotesOf(aqs) == Sorting.SortBy(QuotesFor(routeKey, route, weightKg, services), QuoteLe)
    ensures |aqs| == |services|
    ensures forall i :: 0 <= i < |aqs| ==>
              aqs[i].quote.serviceKey == services[i].key && aqs[i].quote.serviceName == services[i].name
    ensures aqs != [] ==> SummaryOf(QuotesOf(aqs)).fastestService == services[0].name
  {
    CollectedInOrder(routeKey, route, weightKg, services);
    SortedQuotesMatchServices(aqs, QuotesFor(routeKey, route, weightKg, services), services);
  }

  /** For a valid request quote i is service i's, and the fastest service
      is always Next Day Air Early. */
  lemma QuotesInCatalogOrder(resp: QuoteResponse, origin: string, destination: string, weightKg: real)
    requires ValidateQuoteInputs(origin, destination, weightKg).None?
    requires IsResponseFor(resp, origin, destination, weightKg)
    ensures |resp.quotes| == |UpsServices.Services()|
    ensures forall i :: 0 <= i < |resp.quotes| ==>
              resp.quotes[i].quote.serviceKey == UpsServices.Services()[i].key
              && resp.quotes[i].quote.serviceName == UpsServices.Services()[i].name
    ensures resp.summary.fastestService == "UPS Next Day Air Early"
  {
    ResolvedKeyAccepted(origin, destination);
    UpsServices.CatalogByDeliveryTime();
    QuotesKeepServiceOrder(resp.quotes, ResolveRoute(origin, destination).0, ResolveRoute(origin, destination).1,
                           weightKg, UpsServices.Services());
  }

  /** Results that hold the footprints of `services` on a route key and
      weight that pass the checks, in any order, list every service by name. */
  lemma ResultsListEveryService(results: seq<CarbonCalculator.CarbonResult>, routeKey: string, weightKg: real,
                                services: seq<UpsServices.Service>)
    requires routeKey != [] && 0.0 < weightKg <= 70.0 && CarbonCalculator.RouteDistances(routeKey).Ok?
    requires multiset(CarbonCalculator.EntriesOf(results))
             == multiset(CarbonCalculator.CarbonEntries(routeKey, weightKg, services))
    ensures forall i :: 0 <= i < |services| ==> LookupAnnotation(results, services[i].name).Some?
  {
    var entries := CarbonCalculator.CarbonEntries(routeKey, weightKg, services);
    CarbonCalculator.CarbonEntriesNames(routeKey, weightKg, services);
    var es := CarbonCalculator.EntriesOf(results);
    forall i | 0 <= i < |services|
      ensures LookupAnnotation(results, services[i].name).Some?
    {
      assert entries[i] in multiset(es);
      var j :| 0 <= j < |es| && es[j] == entries[i];
      assert results[j].entry.serviceName == services[i].name;
    }
  }

  /** For a valid request the carbon comparison always succeeds and lists
      every quoted service, so no quote falls back to "standard" and 0.0. */
  lemma EveryQuoteBadged(resp: QuoteResponse, origin: string, destination: string, weightKg: real)
    requires ValidateQuoteInputs(origin, destination, weightKg).None?
    requires IsResponseFor(resp, origin, destination, weightKg)
    ensures resp.carbonComparison.Ok?
    ensures forall i :: 0 <= i < |resp.quotes| ==>
              LookupAnnotation(resp.carbonComparison.value.results, resp.quotes[i].quote.serviceName).Some?
  {
    QuotesInCatalogOrder(resp, origin, destination, weightKg);
    ResolvedKeyAccepted(origin, destination);
    var routeKey := ResolveRoute(origin, destination).0;
    var results := resp.carbonComparison.value.results;
    assert multiset(CarbonCalculator.EntriesOf(results))
           == multiset(CarbonCalculator.CarbonEntries(routeKey, weightKg, UpsServices.Services()));
    ResultsListEveryService(results, routeKey, weightKg, UpsServices.Services());
  }
}
