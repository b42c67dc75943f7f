/** The request and response value models of the shipping API: the field
    constraints and validators each model enforces on construction, and the
    derived-value and ordering helpers defined on them.

    Construction is modelled the way the validation library runs it: fields
    are checked in declaration order, a field's own constraints first and its
    validator after, and a validator sees in `values` only the fields
    declared before it that passed. A model is built exactly when its error
    list is empty. */
module Shipping {
  import opened Base
  import Sorting
  import UpsServices

  datatype WeightCategory = Envelope | Small | Medium | Large

  datatype EcoBadge = CarbonNeutral | EcoFriendly | Standard

  /** Why one field was refused: a numeric or length bound, a missing key,
      or the message of a field validator. */
  datatype Problem =
    | NotGreaterThan(bound: real)
    | NotAtLeast(bound: real)
    | NotAtMost(bound: real)
    | TooShort(minLength: nat)
    | TooLong(maxLength: nat)
    | TooFewItems(minItems: nat)
    | Invalid(message: string)

  datatype FieldError = FieldError(field: string, problem: Problem)

  // ---------------------------------------------------------------------
  // Field constraints
  // ---------------------------------------------------------------------

  /** Field(gt=lo, le=hi) on a float. */
  function GtLe(field: string, v: real, lo: real, hi: real): (r: seq<FieldError>)
    ensures r == [] <==> lo < v <= hi
    ensures |r| <= 1
  {
    if !(v > lo) then [FieldError(field, NotGreaterThan(lo))]
    else if !(v <= hi) then [FieldError(field, NotAtMost(hi))]
    else []
  }

  /** Field(ge=lo, le=hi) on a float. */
  function GeLe(field: string, v: real, lo: real, hi: real): (r: seq<FieldError>)
    ensures r == [] <==> lo <= v <= hi
    ensures |r| <= 1
  {
    if !(v >= lo) then [FieldError(field, NotAtLeast(lo))]
    else if !(v <= hi) then [FieldError(field, NotAtMost(hi))]
    else []
  }

  /** Field(ge=lo) on a float. */
  function Ge(field: string, v: real, lo: real): (r: seq<FieldError>)
    ensures r == [] <==> lo <= v
  {
    if v >= lo then [] else [FieldError(field, NotAtLeast(lo))]
  }

  /** Field(min_length=lo, max_length=hi) on a string. */
  function Length(field: string, v: string, lo: nat, hi: nat): (r: seq<FieldError>)
    ensures r == [] <==> lo <= |v| <= hi
  {
    if |v| < lo then [FieldError(field, TooShort(lo))]
    else if |v| > hi then [FieldError(field, TooLong(hi))]
    else []
  }

  // ---------------------------------------------------------------------
  // LocationModel
  // ---------------------------------------------------------------------

  datatype Location = Location(city: string, state: string, zipCode: string, country: string)

  /** str.isupper() on ASCII text: some letter, and no lower-case letter. */
  predicate IsUpperText(s: string)
  {
    (exists i :: 0 <= i < |s| && IsLetter(s[i]))
    && (forall i :: 0 <= i < |s| ==> !IsLowerLetter(s[i]))
  }

  const StateMessage := "State must be a 2-letter uppercase code (e.g., 'NY')"
  const ZipMessage := "ZIP code must be in format 12345 or 12345-6789"

  /** validate_state_code, run once the length bounds hold. */
  function StateErrors(state: string): (r: seq<FieldError>)
    ensures r == [] <==> |state| == 2 && IsUpperText(state)
  {
    var bounds := Length("state", state, 2, 2);
    if bounds != [] then bounds
    else if |state| != 2 || !IsUpperText(state) then [FieldError("state", Invalid(StateMessage))]
    else []
  }

  /** validate_zip_code, run once the length bounds hold. */
  function ZipErrors(zip: string): (r: seq<FieldError>)
    ensures r == [] <==> 5 <= |zip| <= 10 && MatchesZipPattern(zip)
  {
    var bounds := Length("zip_code", zip, 5, 10);
    if bounds != [] then bounds
    else if !MatchesZipPattern(zip) then [FieldError("zip_code", Invalid(ZipMessage))]
    else []
  }

  /** The errors that refuse a LocationModel, in field order. */
  function LocationErrors(l: Location): (r: seq<FieldError>)
    ensures r == [] <==>
              1 <= |l.city| <= 100 && |l.state| == 2 && IsUpperText(l.state)
              && 5 <= |l.zipCode| <= 10 && MatchesZipPattern(l.zipCode)
  {
    Length("city", l.city, 1, 100) + StateErrors(l.state) + ZipErrors(l.zipCode)
  }

  /** Two upper-case letters make a state code; a lower-case letter anywhere
      refuses it, and so do two digits, which hold no letter. */
  lemma StateCodeExamples(state: string)
    requires |state| == 2
    ensures IsUpperLetter(state[0]) && IsUpperLetter(state[1]) ==> StateErrors(state) == []
    ensures IsLowerLetter(state[0]) || IsLowerLetter(state[1]) ==> StateErrors(state) != []
    ensures IsDigit(state[0]) && IsDigit(state[1]) ==> StateErrors(state) != []
  {
    if IsUpperLetter(state[0]) && IsUpperLetter(state[1]) {
      assert IsLetter(state[0]);
    }
  }

  // ---------------------------------------------------------------------
  // PackageModel
  // ---------------------------------------------------------------------

  datatype Package = Package(
    weightKg: real,
    lengthCm: Option<real>,
    widthCm: Option<real>,
    heightCm: Option<real>,
    declaredValueUsd: Option<real>,
    category: Option<WeightCategory>)

  const WeightMessage := "Weight cannot exceed 70kg for standard shipping"

  /** An optional dimension: absent, or in (0, 150]. */
  function DimensionErrors(field: string, d: Option<real>): (r: seq<FieldError>)
    ensures r == [] <==> d.None? || 0.0 < d.value <= 150.0
  {
    if d.None? then [] else GtLe(field, d.value, 0.0, 150.0)
  }

  /** The errors that refuse a PackageModel, in field order; validate_weight
      runs after the bounds and can never fire on a weight they let through. */
  function PackageErrors(p: Package): (r: seq<FieldError>)
    ensures r == [] <==>
              0.0 < p.weightKg <= 70.0
              && (p.lengthCm.None? || 0.0 < p.lengthCm.value <= 150.0)
              && (p.widthCm.None? || 0.0 < p.widthCm.value <= 150.0)
              && (p.heightCm.None? || 0.0 < p.heightCm.value <= 150.0)
              && (p.declaredValueUsd.None? || p.declaredValueUsd.value >= 0.0)
  {
    var weight := GtLe("weight_kg", p.weightKg, 0.0, 70.0);
    var weightChecked := if weight == [] && p.weightKg > 70.0 then [FieldError("weight_kg", Invalid(WeightMessage))]
                         else weight;
    weightChecked
    + DimensionErrors("length_cm", p.lengthCm)
    + DimensionErrors("width_cm", p.widthCm)
    + DimensionErrors("height_cm", p.heightCm)
    + (if p.declaredValueUsd.None? then [] else Ge("declared_value_usd", p.declaredValueUsd.value, 0.0))
  }

  /** Python truthiness of an optional float: present and non-zero. */
  predicate Truthy(x: Option<real>) { x.Some? && x.value != 0.0 }

  /** get_dimensional_weight_kg: volume over the 5000 cm³/kg factor when all
      three dimensions are truthy. */
  function DimensionalWeight(p: Package): Option<real>
  {
    if Truthy(p.lengthCm) && Truthy(p.widthCm) && Truthy(p.heightCm) then
      Some(p.lengthCm.value * p.widthCm.value * p.heightCm.value / 5000.0)
    else None
  }

  /** get_billable_weight_kg: the greater of actual and a truthy dimensional
      weight. */
  function BillableWeight(p: Package): real
  {
    var dim := DimensionalWeight(p);
    if Truthy(dim) then Max(p.weightKg, dim.value) else p.weightKg
  }

  /** On a package that passed validation the dimensional weight exists
      exactly when all three dimensions were given, and is then positive. */
  lemma DimensionalWeightPresence(p: Package)
    requires PackageErrors(p) == []
    ensures DimensionalWeight(p).Some? <==> p.lengthCm.Some? && p.widthCm.Some? && p.heightCm.Some?
    ensures DimensionalWeight(p).Some? ==> DimensionalWeight(p).value > 0.0
  {
    if p.lengthCm.Some? && p.widthCm.Some? && p.heightCm.Some? {
      var l, w, h := p.lengthCm.value, p.widthCm.value, p.heightCm.value;
      assert l * w > 0.0;
      assert l * w * h > 0.0;
    }
  }

  /** The billable weight is never below the actual weight, and on a valid
      package with all dimensions it is the larger of the two weights. */
  lemma BillableWeightBounds(p: Package)
    ensures BillableWeight(p) >= p.weightKg
    ensures PackageErrors(p) == [] && p.lengthCm.Some? && p.widthCm.Some? && p.heightCm.Some? ==>
              BillableWeight(p) == Max(p.weightKg, p.lengthCm.value * p.widthCm.value * p.heightCm.value / 5000.0)
    ensures DimensionalWeight(p).None? ==> BillableWeight(p) == p.weightKg
  {
    if PackageErrors(p) == [] && p.lengthCm.Some? && p.widthCm.Some? && p.heightCm.Some? {
      DimensionalWeightPresence(p);
    }
  }

  // ---------------------------------------------------------------------
  // TransportMixModel
  // ---------------------------------------------------------------------

  datatype TransportMix = TransportMix(airPct: real, groundPct: real)

  const MixMessage := "Air and ground percentages must sum to 100"

  /** validate_percentages_sum_to_100: air is declared first, so `values`
      holds it whenever it passed its own bounds. */
  function TransportMixErrors(m: TransportMix): (r: seq<FieldError>)
    ensures r == [] <==> 0.0 <= m.airPct <= 100.0 && 0.0 <= m.groundPct <= 100.0
                         && Abs(m.airPct + m.groundPct - 100.0) <= 0.01
  {
    var air := GeLe("air_percentage", m.airPct, 0.0, 100.0);
    var values: map<string, real> := if air == [] then map["air_percentage" := m.airPct] else map[];
    var ground := GeLe("ground_percentage", m.groundPct, 0.0, 100.0);
    air
    + if ground != [] then ground
      else if "air_percentage" in values && Abs(values["air_percentage"] + m.groundPct - 100.0) > 0.01 then
        [FieldError("ground_percentage", Invalid(MixMessage))]
      else []
  }

  // ---------------------------------------------------------------------
  // CarbonFootprintModel
  // ---------------------------------------------------------------------

  datatype CarbonFootprint = CarbonFootprint(totalKg: real, airKg: real, groundKg: real, perKm: real)

  const TotalMessage := "Total CO2 must equal sum of air and ground transport CO2"

  /** validate_total_equals_sum given the `values` the validator sees. */
  function TotalCheck(total: real, values: map<string, real>): seq<FieldError>
  {
    if "air_transport_co2_kg" in values && "ground_transport_co2_kg" in values
       && Abs(total - (values["air_transport_co2_kg"] + values["ground_transport_co2_kg"])) > 0.001
    then [FieldError("total_co2_kg", Invalid(TotalMessage))]
    else []
  }

  /** The errors as the model runs them: total_co2_kg is declared before the
      two parts, so its validator sees no earlier field and checks nothing. */
  function CarbonFootprintErrorsAsWritten(c: CarbonFootprint): (r: seq<FieldError>)
    ensures r == [] <==> c.totalKg >= 0.0 && c.airKg >= 0.0 && c.groundKg >= 0.0 && c.perKm >= 0.0
  {
    var total := Ge("total_co2_kg", c.totalKg, 0.0);
    (if total != [] then total else TotalCheck(c.totalKg, map[]))
    + Ge("air_transport_co2_kg", c.airKg, 0.0)
    + Ge("ground_transport_co2_kg", c.groundKg, 0.0)
    + Ge("co2_per_km", c.perKm, 0.0)
  }

  /** A footprint whose total is not the sum of its parts is accepted. */
  lemma CarbonFootprintSumUnchecked()
    ensures CarbonFootprintErrorsAsWritten(CarbonFootprint(5.0, 1.0, 1.0, 0.0)) == []
  {
  }

  /** The check as intended: the validator sees both parts. */
  function CarbonFootprintErrors(c: CarbonFootprint): (r: seq<FieldError>)
    ensures r == [] ==> Abs(c.totalKg - (c.airKg + c.groundKg)) <= 0.001
    ensures r == [] <==> c.totalKg >= 0.0 && c.airKg >= 0.0 && c.groundKg >= 0.0 && c.perKm >= 0.0
                         && Abs(c.totalKg - (c.airKg + c.groundKg)) <= 0.001
  {
    var total := Ge("total_co2_kg", c.totalKg, 0.0);
    var parts := map["air_transport_co2_kg" := c.airKg, "ground_transport_co2_kg" := c.groundKg];
    (if total != [] then total else TotalCheck(c.totalKg, parts))
    + Ge("air_transport_co2_kg", c.airKg, 0.0)
    + Ge("ground_transport_co2_kg", c.groundKg, 0.0)
    + Ge("co2_per_km", c.perKm, 0.0)
  }

  // ---------------------------------------------------------------------
  // RouteInfoModel
  // ---------------------------------------------------------------------

  datatype RouteInfo = RouteInfo(
    originCity: string,
    destinationCity: string,
    totalKm: real,
    airKm: real,
    groundKm: real,
    transitDays: int,
    complexity: string)

  const DistanceMessage := "Total distance should be reasonable relative to air/ground distances"

  /** validate_total_distance given the `values` the validator sees. */
  function DistanceCheck(total: real, values: map<string, real>): seq<FieldError>
  {
    if "air_distance_km" in values && "ground_distance_km" in values then
      var air, ground := values["air_distance_km"], values["ground_distance_km"];
      if !(Max(air, ground) <= total <= (air + ground) * 1.2) then
        [FieldError("total_distance_km", Invalid(DistanceMessage))]
      else []
    else []
  }

  /** The errors as the model runs them: total_distance_km is declared before
      both distances, so its validator never compares them. */
  function RouteInfoErrorsAsWritten(r: RouteInfo): (errs: seq<FieldError>)
    ensures errs == [] <==> r.totalKm > 0.0 && r.airKm >= 0.0 && r.groundKm >= 0.0 && r.transitDays > 0
  {
    var total := if r.totalKm > 0.0 then [] else [FieldError("total_distance_km", NotGreaterThan(0.0))];
    (if total != [] then total else DistanceCheck(r.totalKm, map[]))
    + Ge("air_distance_km", r.airKm, 0.0)
    + Ge("ground_distance_km", r.groundKm, 0.0)
    + (if r.transitDays > 0 then [] else [FieldError("estimated_transit_days", NotGreaterThan(0.0))])
  }

  /** A route of 10000 km made of 100 km by air and 100 km on the ground is
      accepted. */
  lemma RouteDistanceUnchecked()
    ensures RouteInfoErrorsAsWritten(RouteInfo("A", "B", 10000.0, 100.0, 100.0, 1, "simple")) == []
  {
  }

  /** The check as intended: the validator sees both distances. */
  function RouteInfoErrors(r: RouteInfo): (errs: seq<FieldError>)
    ensures errs == [] <==> r.totalKm > 0.0 && r.airKm >= 0.0 && r.groundKm >= 0.0 && r.transitDays > 0
                            && Max(r.airKm, r.groundKm) <= r.totalKm <= (r.airKm + r.groundKm) * 1.2
  {
    var total := if r.totalKm > 0.0 then [] else [FieldError("total_distance_km", NotGreaterThan(0.0))];
    var parts := map["air_distance_km" := r.airKm, "ground_distance_km" := r.groundKm];
    (if total != [] then total else DistanceCheck(r.totalKm, parts))
    + Ge("air_distance_km", r.airKm, 0.0)
    + Ge("ground_distance_km", r.groundKm, 0.0)
    + (if r.transitDays > 0 then [] else [FieldError("estimated_transit_days", NotGreaterThan(0.0))])
  }

  /** An accepted route is at least as long as its longer leg and at most
      20% longer than both legs together. */
  lemma RouteInfoBounds(r: RouteInfo)
    requires RouteInfoErrors(r) == []
    ensures r.airKm <= r.totalKm && r.groundKm <= r.totalKm
    ensures r.totalKm <= 1.2 * (r.airKm + r.groundKm)
  {
  }

  // ---------------------------------------------------------------------
  // ShippingQuote
  // ---------------------------------------------------------------------

  datatype Quote = Quote(
    serviceName: string,
    serviceCode: string,
    commitmentTime: string,
    etaHours: int,
    costUsd: real,
    carbon: CarbonFootprint,
    mix: TransportMix,
    ecoBadge: EcoBadge,
    priorityLevel: int,
    trackingIncluded: bool,
    insuranceIncluded: bool,
    signatureRequired: bool)

  /** The errors that refuse a ShippingQuote's own fields, in field order;
      the nested footprint and mix report their own. */
  function QuoteErrors(q: Quote): (r: seq<FieldError>)
    ensures r == [] <==> |q.serviceName| >= 1 && |q.serviceCode| >= 1 && q.etaHours > 0 && q.costUsd >= 0.0
                         && 1 <= q.priorityLevel <= 5
                         && CarbonFootprintErrorsAsWritten(q.carbon) == [] && TransportMixErrors(q.mix) == []
  {
    (if |q.serviceName| >= 1 then [] else [FieldError("service_name", TooShort(1))])
    + (if |q.serviceCode| >= 1 then [] else [FieldError("service_code", TooShort(1))])
    + (if q.etaHours > 0 then [] else [FieldError("eta_hours", NotGreaterThan(0.0))])
    + Ge("cost_usd", q.costUsd, 0.0)
    + CarbonFootprintErrorsAsWritten(q.carbon)
    + TransportMixErrors(q.mix)
    + GeLe("priority_level", q.priorityLevel as real, 1.0, 5.0)
  }

  /** UPS Ground carries priority 6 in the service catalog, outside the 1-5
      that a ShippingQuote accepts, so a quote copying Ground's priority
      cannot be built. */
  lemma GroundPriorityOutOfRange(q: Quote)
    requires q.priorityLevel == UpsServices.Ground().priority
    ensures UpsServices.Ground() in UpsServices.Services()
    ensures QuoteErrors(q) != []
  {
  }

  /** get_cost_per_kg: cost over weight, 0 for a non-positive weight. */
  function CostPerKg(q: Quote, weightKg: real): (r: real)
    ensures weightKg > 0.0 ==> r * weightKg == q.costUsd
    ensures weightKg <= 0.0 ==> r == 0.0
  {
    if weightKg > 0.0 then q.costUsd / weightKg else 0.0
  }

  /** get_carbon_efficiency: CO2 per dollar, 0 for a non-positive cost. */
  function CarbonEfficiency(q: Quote): (r: real)
    ensures q.costUsd > 0.0 ==> r * q.costUsd == q.carbon.totalKg
    ensures q.costUsd <= 0.0 ==> r == 0.0
  {
    if q.costUsd > 0.0 then q.carbon.totalKg / q.costUsd else 0.0
  }

  /** Both ratios of an accepted quote are non-negative. */
  lemma RatiosNonNegative(q: Quote, weightKg: real)
    requires QuoteErrors(q) == []
    ensures CostPerKg(q, weightKg) >= 0.0 && CarbonEfficiency(q) >= 0.0
  {
    if weightKg > 0.0 {
      DivNonNegative(q.costUsd, weightKg);
    }
    if q.costUsd > 0.0 {
      DivNonNegative(q.carbon.totalKg, q.costUsd);
    }
  }

  lemma DivNonNegative(a: real, b: real)
    requires a >= 0.0 && b > 0.0
    ensures a / b >= 0.0
  {
    DivMonotone(0.0, a, b);
  }

  // ---------------------------------------------------------------------
  // CarbonComparisonModel and ShippingResponse
  // ---------------------------------------------------------------------

  /** validate_carbon_range / validate_price_range: both keys present and
      min not above max. */
  function RangeErrors(field: string, v: map<string, real>, missing: string, inverted: string): (r: seq<FieldError>)
    ensures r == [] <==> "min" in v && "max" in v && v["min"] <= v["max"]
  {
    if "min" !in v || "max" !in v then [FieldError(field, Invalid(missing))]
    else if v["min"] > v["max"] then [FieldError(field, Invalid(inverted))]
    else []
  }

  /** CarbonComparisonModel: the names are free text; the carbon range must
      hold min and max in order, and the average may not be negative. */
  datatype CarbonComparison = CarbonComparison(
    lowestService: string,
    highestService: string,
    carbonRange: map<string, real>,
    averageKg: real,
    ecoFriendlyOptions: seq<string>)

  function ComparisonErrors(c: CarbonComparison): (r: seq<FieldError>)
    ensures r == [] <==> "min" in c.carbonRange && "max" in c.carbonRange
                         && c.carbonRange["min"] <= c.carbonRange["max"] && c.averageKg >= 0.0
  {
    RangeErrors("carbon_range_kg", c.carbonRange,
                "Carbon range must contain 'min' and 'max' values",
                "Minimum carbon cannot be greater than maximum carbon")
    + Ge("average_carbon_kg", c.averageKg, 0.0)
  }

  datatype Response = Response(
    requestId: string,
    quotes: seq<Quote>,
    comparison: CarbonComparison,
    route: RouteInfo,
    priceRange: map<string, real>,
    fastestService: string,
    cheapestService: string)

  /** The errors of every quote in the list, in order. */
  function QuoteListErrors(quotes: seq<Quote>): (r: seq<FieldError>)
    ensures r == [] <==> forall i :: 0 <= i < |quotes| ==> QuoteErrors(quotes[i]) == []
  {
    FlatMapEmptyIff(QuoteErrors, quotes);
    FlatMap(QuoteErrors, quotes)
  }

  /** The errors that refuse a ShippingResponse, in field order: the quote
      list (non-empty, every quote valid), the nested carbon comparison and
      route (as written), and the price range. */
  function ResponseErrors(r: Response): (errs: seq<FieldError>)
    ensures errs == [] <==> |r.quotes| >= 1 && QuoteListErrors(r.quotes) == []
                            && ComparisonErrors(r.comparison) == [] && RouteInfoErrorsAsWritten(r.route) == []
                            && "min" in r.priceRange && "max" in r.priceRange
                            && r.priceRange["min"] <= r.priceRange["max"]
  {
    var count := if |r.quotes| >= 1 then [] else [FieldError("quotes", TooFewItems(1))];
    var quotes := QuoteListErrors(r.quotes);
    var comparison := ComparisonErrors(r.comparison);
    var route := RouteInfoErrorsAsWritten(r.route);
    var price := RangeErrors("price_range_usd", r.priceRange,
                             "Price range must contain 'min' and 'max' values",
                             "Minimum price cannot be greater than maximum price");
    NoErrorsInParts(count, quotes, comparison, route, price);
    count + quotes + comparison + route + price
  }

  /** A response is accepted exactly when it holds a quote, every quote and
      both nested models are accepted, and the price range is in order. */
  lemma ResponseAcceptance(r: Response)
    ensures ResponseErrors(r) == [] <==>
              |r.quotes| >= 1 && (forall i :: 0 <= i < |r.quotes| ==> QuoteErrors(r.quotes[i]) == [])
              && ComparisonErrors(r.comparison) == [] && RouteInfoErrorsAsWritten(r.route) == []
              && "min" in r.priceRange && "max" in r.priceRange && r.priceRange["min"] <= r.priceRange["max"]
  {
    var everyQuote := QuoteListErrors(r.quotes) == [];
    assert everyQuote <==> forall i :: 0 <= i < |r.quotes| ==> QuoteErrors(r.quotes[i]) == [];
  }

  /** Joined error lists are empty exactly when every part is. */
  lemma NoErrorsInParts(a: seq<FieldError>, b: seq<FieldError>, c: seq<FieldError>, d: seq<FieldError>, e: seq<FieldError>)
    ensures a + b + c + d + e == [] <==> a == [] && b == [] && c == [] && d == [] && e == []
  {
    assert |a + b + c + d + e| == |a| + |b| + |c| + |d| + |e|;
  }

  /** A response holding a quote with UPS Ground's catalog priority is
      refused as a whole. */
  lemma GroundQuoteRefusesResponse(r: Response, i: nat)
    requires i < |r.quotes| && r.quotes[i].priorityLevel == UpsServices.Ground().priority
    ensures ResponseErrors(r) != []
  {
    GroundPriorityOutOfRange(r.quotes[i]);
  }

  function ByPriority(): (Quote, Quote) -> bool { (a: Quote, b: Quote) => a.priorityLevel <= b.priorityLevel }
  function ByPrice(): (Quote, Quote) -> bool { (a: Quote, b: Quote) => a.costUsd <= b.costUsd }
  function ByCarbon(): (Quote, Quote) -> bool { (a: Quote, b: Quote) => a.carbon.totalKg <= b.carbon.totalKg }
  function BySpeed(): (Quote, Quote) -> bool { (a: Quote, b: Quote) => a.etaHours <= b.etaHours }

  /** get_quotes_by_priority / _price / _carbon / _speed */
  function QuotesByPriority(r: Response): seq<Quote> { Sorting.SortBy(r.quotes, ByPriority()) }
  function QuotesByPrice(r: Response): seq<Quote> { Sorting.SortBy(r.quotes, ByPrice()) }
  function QuotesByCarbon(r: Response): seq<Quote> { Sorting.SortBy(r.quotes, ByCarbon()) }
  function QuotesBySpeed(r: Response): seq<Quote> { Sorting.SortBy(r.quotes, BySpeed()) }

  /** Each ordering returns the response's quotes, rearranged so that the
      key never decreases. */
  lemma QuoteOrderings(r: Response)
    ensures multiset(QuotesByPriority(r)) == multiset(r.quotes)
    ensures forall i, j :: 0 <= i < j < |r.quotes| ==>
              QuotesByPriority(r)[i].priorityLevel <= QuotesByPriority(r)[j].priorityLevel
    ensures multiset(QuotesByPrice(r)) == multiset(r.quotes)
    ensures forall i, j :: 0 <= i < j < |r.quotes| ==> QuotesByPrice(r)[i].costUsd <= QuotesByPrice(r)[j].costUsd
    ensures multiset(QuotesByCarbon(r)) == multiset(r.quotes)
    ensures forall i, j :: 0 <= i < j < |r.quotes| ==>
              QuotesByCarbon(r)[i].carbon.totalKg <= QuotesByCarbon(r)[j].carbon.totalKg
    ensures multiset(QuotesBySpeed(r)) == multiset(r.quotes)
    ensures forall i, j :: 0 <= i < j < |r.quotes| ==> QuotesBySpeed(r)[i].etaHours <= QuotesBySpeed(r)[j].etaHours
  {
    Sorting.SortBySorted(r.quotes, ByPriority());
    Sorting.SortBySorted(r.quotes, ByPrice());
    Sorting.SortBySorted(r.quotes, ByCarbon());
    Sorting.SortBySorted(r.quotes, BySpeed());
  }
}
