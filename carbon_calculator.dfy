/** Tonne-kilometre CO2 estimates for one shipment, and the comparison of
    every UPS service on one route with savings and relative eco badges. */
module CarbonCalculator {
  import opened Base
  import Sorting
  import UpsServices

  // EmissionFactors
  const TruckFactor: real := 0.150
  const AirFactor: real := 0.570
  const GroundEfficiencyFactor: real := 0.85
  const ExpressEfficiencyFactor: real := 1.10
  const TreeOffsetKgPerYear: real := 21.0
  const CarEmissionKgPerMile: real := 0.411

  /** The parts of a service-data dictionary the calculator reads: the three
      required fields, each possibly absent, and how many other keys it has
      (an empty dictionary is rejected on its own). */
  datatype ServiceData = ServiceData(name: Option<string>, airPct: Option<real>, truckPct: Option<real>, otherFields: nat)

  function ServiceDataOf(s: UpsServices.Service): ServiceData
  {
    ServiceData(Some(s.name), Some(s.airPct), Some(s.truckPct), 11)
  }

  datatype CarbonError =
    | EmptyRouteKey
    | WeightOutOfRange(weightKg: real)
    | InvalidServiceData
    | MissingField(field: string)
    | RouteNotFound(routeKey: string)

  /** CarbonBreakdown */
  datatype CarbonBreakdown = CarbonBreakdown(
    totalCo2Kg: real,
    airCo2Kg: real,
    truckCo2Kg: real,
    airTkm: real,
    truckTkm: real,
    treesOffset: real,
    carMiles: real,
    serviceName: string,
    routeKey: string,
    weightKg: real,
    co2PerKg: real,
    co2PerKm: real)

  /** _validate_carbon_inputs: the first failing check, or None. */
  function ValidateCarbonInputs(routeKey: string, weightKg: real, data: ServiceData): (r: Option<CarbonError>)
    ensures r.None? <==> routeKey != [] && 0.0 < weightKg <= 70.0
                         && data.name.Some? && data.airPct.Some? && data.truckPct.Some?
    ensures routeKey == [] ==> r == Some(EmptyRouteKey)
    ensures routeKey != [] && !(0.0 < weightKg <= 70.0) ==> r == Some(WeightOutOfRange(weightKg))
  {
    if routeKey == [] then Some(EmptyRouteKey)
    else if weightKg <= 0.0 || weightKg > 70.0 then Some(WeightOutOfRange(weightKg))
    else if data.name.None? && data.airPct.None? && data.truckPct.None? && data.otherFields == 0 then Some(InvalidServiceData)
    else if data.name.None? then Some(MissingField("name"))
    else if data.airPct.None? then Some(MissingField("air_percentage"))
    else if data.truckPct.None? then Some(MissingField("truck_percentage"))
    else None
  }

  /** The mean air and ground distances over DEMO_ROUTES, unrounded. */
  function FallbackDistances(): (real, real)
  {
    (UpsServices.MeanAirKm(), UpsServices.MeanGroundKm())
  }

  /** The (air, ground) distances used for a route key: the demo route's,
      else the demo means for a "FALLBACK_" key, else an error. */
  function RouteDistances(routeKey: string): (r: Result<(real, real), CarbonError>)
    ensures r.Err? <==> UpsServices.GetRouteByKey(routeKey).None? && !StartsWith(routeKey, "FALLBACK_")
    ensures UpsServices.GetRouteByKey(routeKey).Some? ==>
              r == Ok((UpsServices.GetRouteByKey(routeKey).value.airKm, UpsServices.GetRouteByKey(routeKey).value.groundKm))
  {
    match UpsServices.GetRouteByKey(routeKey)
    case Some(route) => Ok((route.airKm, route.groundKm))
    case None =>
      if StartsWith(routeKey, "FALLBACK_") then Ok(FallbackDistances())
      else Err(RouteNotFound(routeKey))
  }

  /** _get_service_efficiency_factor */
  function EfficiencyFactor(serviceName: string): (f: real)
    ensures Contains(Lower(serviceName), "ground") ==> f == GroundEfficiencyFactor
    ensures !Contains(Lower(serviceName), "ground") ==>
              (f == ExpressEfficiencyFactor <==>
                 Contains(Lower(serviceName), "next day") || Contains(Lower(serviceName), "early")
                 || Contains(Lower(serviceName), "express"))
    ensures f == GroundEfficiencyFactor || f == ExpressEfficiencyFactor || f == 1.0
  {
    var n := Lower(serviceName);
    if Contains(n, "ground") then GroundEfficiencyFactor
    else if Contains(n, "next day") || Contains(n, "early") || Contains(n, "express") then ExpressEfficiencyFactor
    else 1.0
  }

  function AirTkm(airKm: real, airPct: real, weightKg: real): real
  {
    (airKm * airPct / 100.0) * (weightKg / 1000.0)
  }

  function TruckTkm(groundKm: real, truckPct: real, weightKg: real): real
  {
    (groundKm * truckPct / 100.0) * (weightKg / 1000.0)
  }

  /** The unrounded total of calculate_carbon_footprint. */
  function RawTotalCo2(airKm: real, groundKm: real, airPct: real, truckPct: real, weightKg: real, efficiency: real): real
  {
    AirTkm(airKm, airPct, weightKg) * AirFactor + TruckTkm(groundKm, truckPct, weightKg) * TruckFactor * efficiency
  }

  /** The breakdown once the inputs are validated and the route's (air,
      ground) distances are known. */
  function Breakdown(routeKey: string, weightKg: real, name: string, airPct: real, truckPct: real,
                     airKm: real, groundKm: real): (b: CarbonBreakdown)
    ensures b.serviceName == name && b.routeKey == routeKey && b.weightKg == weightKg
  {
    var airTkm := AirTkm(airKm, airPct, weightKg);
    var truckTkm := TruckTkm(groundKm, truckPct, weightKg);
    var efficiency := EfficiencyFactor(name);
    var airCo2 := airTkm * AirFactor;
    var truckCo2 := truckTkm * TruckFactor * efficiency;
    var total := airCo2 + truckCo2;
    var distance := Max(airKm, groundKm);
    CarbonBreakdown(
      RoundTo(total, 1000.0), RoundTo(airCo2, 1000.0), RoundTo(truckCo2, 1000.0),
      RoundTo(airTkm, 1000.0), RoundTo(truckTkm, 1000.0),
      RoundTo(total / TreeOffsetKgPerYear, 100.0), RoundTo(total / CarEmissionKgPerMile, 10.0),
      name, routeKey, weightKg,
      RoundTo(if weightKg > 0.0 then total / weightKg else 0.0, 10000.0),
      if distance > 0.0 then RoundTo(total / distance, 10000.0) else 0.0)
  }

  /** calculate_carbon_footprint: the first validation failure, else the
      route failure, else the breakdown on the resolved distances. */
  function CalculateCarbonFootprint(routeKey: string, weightKg: real, data: ServiceData): (r: Result<CarbonBreakdown, CarbonError>)
    ensures ValidateCarbonInputs(routeKey, weightKg, data).Some? ==> r == Err(ValidateCarbonInputs(routeKey, weightKg, data).value)
    ensures r.Ok? <==> ValidateCarbonInputs(routeKey, weightKg, data).None? && RouteDistances(routeKey).Ok?
    ensures r.Ok? ==>
              r.value == Breakdown(routeKey, weightKg, data.name.value, data.airPct.value, data.truckPct.value,
                                   RouteDistances(routeKey).value.0, RouteDistances(routeKey).value.1)
  {
    match ValidateCarbonInputs(routeKey, weightKg, data)
    case Some(e) => Err(e)
    case None =>
      match RouteDistances(routeKey)
      case Err(e) => Err(e)
      case Ok((airKm, groundKm)) =>
        Ok(Breakdown(routeKey, weightKg, data.name.value, data.airPct.value, data.truckPct.value, airKm, groundKm))
  }

  /** The unrounded total is linear in weight: weight times a per-kg figure
      that depends only on the route and the service. */
  lemma RawTotalLinearInWeight(airKm: real, groundKm: real, airPct: real, truckPct: real, weightKg: real, efficiency: real)
    ensures RawTotalCo2(airKm, groundKm, airPct, truckPct, weightKg, efficiency)
            == weightKg * RawTotalCo2(airKm, groundKm, airPct, truckPct, 1.0, efficiency)
  {
    var a := airKm * airPct / 100.0;
    var t := groundKm * truckPct / 100.0;
    assert AirTkm(airKm, airPct, weightKg) == weightKg * (a / 1000.0);
    assert TruckTkm(groundKm, truckPct, weightKg) == weightKg * (t / 1000.0);
  }

  /** The reported total is the unrounded total rounded to grams. */
  lemma BreakdownTotal(routeKey: string, weightKg: real, name: string, airPct: real, truckPct: real,
                       airKm: real, groundKm: real)
    ensures Breakdown(routeKey, weightKg, name, airPct, truckPct, airKm, groundKm).totalCo2Kg
            == RoundTo(RawTotalCo2(airKm, groundKm, airPct, truckPct, weightKg, EfficiencyFactor(name)), 1000.0)
  {
  }

  lemma RawTotalMonotone(airKm: real, groundKm: real, airPct: real, truckPct: real, w1: real, w2: real, e: real)
    requires 0.0 <= w1 <= w2 && e >= 0.0
    requires airPct >= 0.0 && truckPct >= 0.0 && airKm >= 0.0 && groundKm >= 0.0
    ensures 0.0 <= RawTotalCo2(airKm, groundKm, airPct, truckPct, w1, e) <= RawTotalCo2(airKm, groundKm, airPct, truckPct, w2, e)
  {
    var unit := RawTotalCo2(airKm, groundKm, airPct, truckPct, 1.0, e);
    assert unit >= 0.0 by {
      MulMonotone(0.0, airKm, airPct);
      MulMonotone(0.0, groundKm, truckPct);
      var a := AirTkm(airKm, airPct, 1.0);
      var t := TruckTkm(groundKm, truckPct, 1.0);
      assert a >= 0.0 && t >= 0.0;
      MulMonotone(0.0, t * TruckFactor, e);
    }
    RawTotalLinearInWeight(airKm, groundKm, airPct, truckPct, w1, e);
    RawTotalLinearInWeight(airKm, groundKm, airPct, truckPct, w2, e);
    MulMonotone(0.0, w1, unit);
    MulMonotone(w1, w2, unit);
  }

  /** On non-negative distances and transport shares the reported total is
      never negative, and a heavier package never reports less CO2. */
  lemma FootprintMonotoneInWeight(routeKey: string, w1: real, w2: real, name: string, airPct: real, truckPct: real,
                                  airKm: real, groundKm: real)
    requires 0.0 <= w1 <= w2
    requires airPct >= 0.0 && truckPct >= 0.0 && airKm >= 0.0 && groundKm >= 0.0
    ensures 0.0 <= Breakdown(routeKey, w1, name, airPct, truckPct, airKm, groundKm).totalCo2Kg
    ensures Breakdown(routeKey, w1, name, airPct, truckPct, airKm, groundKm).totalCo2Kg
            <= Breakdown(routeKey, w2, name, airPct, truckPct, airKm, groundKm).totalCo2Kg
  {
    var e := EfficiencyFactor(name);
    BreakdownTotal(routeKey, w1, name, airPct, truckPct, airKm, groundKm);
    BreakdownTotal(routeKey, w2, name, airPct, truckPct, airKm, groundKm);
    RawTotalMonotone(airKm, groundKm, airPct, truckPct, w1, w2, e);
    var r1 := RawTotalCo2(airKm, groundKm, airPct, truckPct, w1, e);
    var r2 := RawTotalCo2(airKm, groundKm, airPct, truckPct, w2, e);
    assert RoundTo(0.0, 1000.0) == 0.0;
    RoundToMonotone(0.0, r1, 1000.0);
    RoundToMonotone(r1, r2, 1000.0);
  }

  /** Every catalog service passes the field checks, so a footprint fails
      only through the route key or the weight. */
  lemma CatalogServiceFootprint(routeKey: string, weightKg: real, s: UpsServices.Service)
    ensures CalculateCarbonFootprint(routeKey, weightKg, ServiceDataOf(s)).Ok?
            <==> routeKey != [] && 0.0 < weightKg <= 70.0 && RouteDistances(routeKey).Ok?
  {
  }

  // ---------------------------------------------------------------------
  // CarbonComparison
  // ---------------------------------------------------------------------

  datatype CarbonBadge = MostEcoFriendly | EcoFriendly | Standard | HighEmission

  /** _assign_eco_badge: the batch minimum first, then at most the mean,
      then within 10% of the maximum. */
  function AssignEcoBadge(carbonKg: real, minKg: real, maxKg: real, avgKg: real): (b: CarbonBadge)
    ensures b == MostEcoFriendly <==> carbonKg == minKg
    ensures b == EcoFriendly <==> carbonKg != minKg && carbonKg <= avgKg
    ensures b == HighEmission <==> carbonKg != minKg && carbonKg > avgKg && carbonKg >= maxKg * 0.9
  {
    if carbonKg == minKg then MostEcoFriendly
    else if carbonKg <= avgKg then EcoFriendly
    else if carbonKg >= maxKg * 0.9 then HighEmission
    else Standard
  }

  /** One appended entry of `carbon_results` before it is annotated. */
  datatype CarbonEntry = CarbonEntry(serviceKey: string, serviceName: string, breakdown: CarbonBreakdown, priority: int)

  /** An entry of `carbon_results` after the savings and badge are written. */
  datatype CarbonResult = CarbonResult(entry: CarbonEntry, savingsPct: real, ecoBadge: CarbonBadge)

  datatype Comparison = Comparison(
    results: seq<CarbonResult>,
    lowestService: string,
    highestService: string,
    minKg: real,
    maxKg: real,
    avgKg: real,
    rangeKg: real,
    ecoFriendlyServices: seq<string>,
    routeKey: string,
    weightKg: real)

  function Total(e: CarbonEntry): real { e.breakdown.totalCo2Kg }

  predicate TotalLe(a: CarbonEntry, b: CarbonEntry) { Total(a) <= Total(b) }

  function Totals(es: seq<CarbonEntry>): (r: seq<real>)
    ensures |r| == |es| && forall i :: 0 <= i < |es| ==> r[i] == Total(es[i])
  {
    if es == [] then [] else Totals(es[..|es| - 1]) + [Total(es[|es| - 1])]
  }

  function SeqMin(s: seq<real>): (m: real)
    requires s != []
    ensures m in s && forall x :: x in s ==> m <= x
  {
    if |s| == 1 then s[0]
    else
      var m := SeqMin(s[..|s| - 1]);
      assert forall x :: x in s ==> x in s[..|s| - 1] || x == s[|s| - 1];
      if s[|s| - 1] < m then s[|s| - 1] else m
  }

  function SeqMax(s: seq<real>): (m: real)
    requires s != []
    ensures m in s && forall x :: x in s ==> x <= m
  {
    if |s| == 1 then s[0]
    else
      var m := SeqMax(s[..|s| - 1]);
      assert forall x :: x in s ==> x in s[..|s| - 1] || x == s[|s| - 1];
      if s[|s| - 1] > m then s[|s| - 1] else m
  }

  function SeqSum(s: seq<real>): real
  {
    if s == [] then 0.0 else SeqSum(s[..|s| - 1]) + s[|s| - 1]
  }

  /** The entries the comparison loop appends for `services`: one per
      service whose footprint succeeds, in catalog order. */
  function CarbonEntries(routeKey: string, weightKg: real, services: seq<UpsServices.Service>): seq<CarbonEntry>
  {
    FlatMap(EntryMaker(routeKey, weightKg), services)
  }

  function EntryMaker(routeKey: string, weightKg: real): UpsServices.Service -> seq<CarbonEntry>
  {
    s => EntryFor(routeKey, weightKg, s)
  }

  /** The entry appended for one service: none when its footprint fails. */
  function EntryFor(routeKey: string, weightKg: real, s: UpsServices.Service): seq<CarbonEntry>
  {
    match CalculateCarbonFootprint(routeKey, weightKg, ServiceDataOf(s))
    case Ok(b) => [CarbonEntry(s.key, s.name, b, s.priority)]
    case Err(_) => []
  }

  lemma CarbonEntriesStep(routeKey: string, weightKg: real, services: seq<UpsServices.Service>, i: nat)
    requires i < |services|
    ensures CarbonEntries(routeKey, weightKg, services[..i + 1])
            == CarbonEntries(routeKey, weightKg, services[..i]) + EntryFor(routeKey, weightKg, services[i])
  {
    FlatMapStep(EntryMaker(routeKey, weightKg), services, i);
  }

  /** When the route key and weight pass the checks, entry i is service
      i's. */
  lemma CarbonEntriesNames(routeKey: string, weightKg: real, services: seq<UpsServices.Service>)
    requires routeKey != [] && 0.0 < weightKg <= 70.0 && RouteDistances(routeKey).Ok?
    ensures |CarbonEntries(routeKey, weightKg, services)| == |services|
    ensures forall i :: 0 <= i < |services| ==>
              CarbonEntries(routeKey, weightKg, services)[i].serviceKey == services[i].key
              && CarbonEntries(routeKey, weightKg, services)[i].serviceName == services[i].name
  {
    var f := EntryMaker(routeKey, weightKg);
    forall i | 0 <= i < |services|
      ensures |f(services[i])| == 1
      ensures f(services[i])[0].serviceKey == services[i].key && f(services[i])[0].serviceName == services[i].name
    {
      EntryForShape(routeKey, weightKg, services[i]);
    }
    FlatMapSingletons(f, services);
  }

  /** With a valid route key and weight a catalog service yields one entry
      carrying its key and name. */
  lemma EntryForShape(routeKey: string, weightKg: real, s: UpsServices.Service)
    requires routeKey != [] && 0.0 < weightKg <= 70.0 && RouteDistances(routeKey).Ok?
    ensures |EntryFor(routeKey, weightKg, s)| == 1
    ensures EntryFor(routeKey, weightKg, s)[0].serviceKey == s.key && EntryFor(routeKey, weightKg, s)[0].serviceName == s.name
  {
    CatalogServiceFootprint(routeKey, weightKg, s);
  }

  /** Every catalog service yields an entry when the route key and weight
      pass the checks, and none does otherwise. */
  lemma CarbonEntriesLength(routeKey: string, weightKg: real, services: seq<UpsServices.Service>)
    ensures routeKey != [] && 0.0 < weightKg <= 70.0 && RouteDistances(routeKey).Ok?
            ==> |CarbonEntries(routeKey, weightKg, services)| == |services|
    ensures !(routeKey != [] && 0.0 < weightKg <= 70.0 && RouteDistances(routeKey).Ok?)
            ==> CarbonEntries(routeKey, weightKg, services) == []
  {
    var f := EntryMaker(routeKey, weightKg);
    if routeKey != [] && 0.0 < weightKg <= 70.0 && RouteDistances(routeKey).Ok? {
      CarbonEntriesNames(routeKey, weightKg, services);
    } else {
      forall i | 0 <= i < |services| ensures f(services[i]) == [] {
        CatalogServiceFootprint(routeKey, weightKg, services[i]);
      }
      FlatMapEmpties(f, services);
    }
  }

  /** Savings against the highest-emitting service, in percent, rounded to one decimal. */
  function SavingsPct(carbonKg: real, maxKg: real): real
  {
    RoundTo(if maxKg > 0.0 then (maxKg - carbonKg) / maxKg * 100.0 else 0.0, 10.0)
  }

  /** Savings lie between 0 and 100 percent for any total in [0, max]. */
  lemma SavingsWithinRange(carbonKg: real, maxKg: real)
    requires 0.0 <= carbonKg <= maxKg
    ensures 0.0 <= SavingsPct(carbonKg, maxKg) <= 100.0
    ensures carbonKg == maxKg ==> SavingsPct(carbonKg, maxKg) == 0.0
  {
    if maxKg > 0.0 {
      var f := (maxKg - carbonKg) / maxKg;
      assert 0.0 <= f <= 1.0 by {
        DivMonotone(0.0, maxKg - carbonKg, maxKg);
        DivMonotone(maxKg - carbonKg, maxKg, maxKg);
      }
      RoundToMonotone(0.0, f * 100.0, 10.0);
      RoundToMonotone(f * 100.0, 100.0, 10.0);
    }
  }

  function Annotate(e: CarbonEntry, minKg: real, maxKg: real, avgKg: real): CarbonResult
  {
    CarbonResult(e, SavingsPct(Total(e), maxKg), AssignEcoBadge(Total(e), minKg, maxKg, avgKg))
  }

  /** The names of the results whose total is at most the mean, in order. */
  function NamesAtMost(results: seq<CarbonResult>, avgKg: real): (names: seq<string>)
    ensures forall n :: n in names <==> exists i :: 0 <= i < |results| && results[i].entry.serviceName == n
                                                     && Total(results[i].entry) <= avgKg
  {
    if results == [] then []
    else
      var last := results[|results| - 1];
      var init := results[..|results| - 1];
      assert forall i :: 0 <= i < |init| ==> init[i] == results[i];
      NamesAtMost(init, avgKg) + (if Total(last.entry) <= avgKg then [last.entry.serviceName] else [])
  }

  /** The entries of a list of results, in order. */
  function EntriesOf(results: seq<CarbonResult>): (es: seq<CarbonEntry>)
    ensures |es| == |results| && forall i :: 0 <= i < |results| ==> es[i] == results[i].entry
  {
    if results == [] then [] else EntriesOf(results[..|results| - 1]) + [results[|results| - 1].entry]
  }

  /** The first loop of carbon_comparison: one entry per catalog service
      whose footprint succeeds, failures skipped. */
  method CollectEntries(routeKey: string, weightKg: real, services: seq<UpsServices.Service>)
    returns (entries: seq<CarbonEntry>)
    ensures entries == CarbonEntries(routeKey, weightKg, services)
  {
    entries := [];
    var i := 0;
    while i < |services|
      invariant 0 <= i <= |services|
      invariant entries == CarbonEntries(routeKey, weightKg, services[..i])
    {
      CarbonEntriesStep(routeKey, weightKg, services, i);
      var step := EntryStep(routeKey, weightKg, services[i]);
      entries := entries + step;
      i := i + 1;
    }
    assert services[..|services|] == services;
  }

  /** One pass of that loop: the footprint, and the entry when it succeeds. */
  method EntryStep(routeKey: string, weightKg: real, s: UpsServices.Service) returns (step: seq<CarbonEntry>)
    ensures step == EntryFor(routeKey, weightKg, s)
  {
    var footprint := CalculateCarbonFootprint(routeKey, weightKg, ServiceDataOf(s));
    if footprint.Ok? {
      step := [CarbonEntry(s.key, s.name, footprint.value, s.priority)];
    } else {
      step := [];
    }
  }

  /** The second loop of carbon_comparison: savings and badge for each entry. */
  method AnnotateAll(sorted: seq<CarbonEntry>, minKg: real, maxKg: real, avgKg: real) returns (results: seq<CarbonResult>)
    ensures EntriesOf(results) == sorted
    ensures forall j :: 0 <= j < |results| ==> results[j] == Annotate(sorted[j], minKg, maxKg, avgKg)
  {
    results := [];
    var k := 0;
    while k < |sorted|
      invariant 0 <= k <= |sorted| && |results| == k
      invariant forall j :: 0 <= j < k ==> results[j] == Annotate(sorted[j], minKg, maxKg, avgKg)
    {
      results := results + [Annotate(sorted[k], minKg, maxKg, avgKg)];
      k := k + 1;
    }
  }

  function Mean(t: seq<real>): real
    requires t != []
  {
    SeqSum(t) / |t| as real
  }

  /** What carbon_comparison returns for the footprints `entries` it
      collected: the entries sorted by total (Python's stable sort), each
      annotated against the batch minimum, maximum and mean, and the
      statistics of the batch. */
  ghost predicate IsComparisonOf(c: Comparison, entries: seq<CarbonEntry>, routeKey: string, weightKg: real)
  {
    var es := EntriesOf(c.results);
    IsSortedBatch(es, entries) && IsAnnotated(c.results) && HasStatistics(c, routeKey, weightKg)
  }

  ghost predicate IsSortedBatch(es: seq<CarbonEntry>, entries: seq<CarbonEntry>)
  {
    |es| == |entries| && es != []
    && es == Sorting.SortBy(entries, TotalLe)
    && multiset(es) == multiset(entries)
    && Sorting.SortedBy(es, TotalLe)
  }

  /** Every result carries the savings and badge of its total against the
      batch minimum (the first total), maximum (the last) and mean. */
  ghost predicate IsAnnotated(results: seq<CarbonResult>)
  {
    var totals := Totals(EntriesOf(results));
    results != []
    && SeqMin(totals) == totals[0] && SeqMax(totals) == totals[|totals| - 1]
    && forall i :: 0 <= i < |results| ==>
         results[i] == Annotate(results[i].entry, totals[0], totals[|totals| - 1], Mean(totals))
  }

  /** max(carbon_values) - min(carbon_values) */
  function Range(t: seq<real>): (d: real)
    requires t != []
    ensures d >= 0.0
  {
    SeqMax(t) - SeqMin(t)
  }

  ghost predicate HasStatistics(c: Comparison, routeKey: string, weightKg: real)
  {
    var totals := Totals(EntriesOf(c.results));
    c.results != []
    && c.lowestService == c.results[0].entry.serviceName
    && c.highestService == c.results[|c.results| - 1].entry.serviceName
    && c.ecoFriendlyServices == NamesAtMost(c.results, Mean(totals))
    && c.minKg == RoundTo(SeqMin(totals), 1000.0) && c.maxKg == RoundTo(SeqMax(totals), 1000.0)
    && c.avgKg == RoundTo(Mean(totals), 1000.0)
    && c.rangeKg == RoundTo(Range(totals), 1000.0)
    && c.routeKey == routeKey && c.weightKg == weightKg
  }

  /** The statistics and annotations for a non-empty batch of entries. */
  method Summarise(entries: seq<CarbonEntry>, routeKey: string, weightKg: real) returns (c: Comparison)
    requires entries != []
    ensures IsComparisonOf(c, entries, routeKey, weightKg)
  {
    var sorted := Sorting.SortBy(entries, TotalLe);
    SortedBatch(entries);

    var values := Totals(sorted);
    var minKg := SeqMin(values);
    var maxKg := SeqMax(values);
    var avgKg := Mean(values);

    var results := AnnotateAll(sorted, minKg, maxKg, avgKg);
    AnnotatedResults(results, sorted, minKg, maxKg, avgKg);
    var eco := NamesAtMost(results, avgKg);
    c := Comparison(
      results, results[0].entry.serviceName, results[|results| - 1].entry.serviceName,
      RoundTo(minKg, 1000.0), RoundTo(maxKg, 1000.0), RoundTo(avgKg, 1000.0), RoundTo(Range(values), 1000.0),
      eco, routeKey, weightKg);
    Statistics(c, routeKey, weightKg, values);
  }

  lemma SortedBatch(entries: seq<CarbonEntry>)
    requires entries != []
    ensures IsSortedBatch(Sorting.SortBy(entries, TotalLe), entries)
    ensures SeqMin(Totals(Sorting.SortBy(entries, TotalLe))) == Totals(Sorting.SortBy(entries, TotalLe))[0]
    ensures SeqMax(Totals(Sorting.SortBy(entries, TotalLe)))
            == Totals(Sorting.SortBy(entries, TotalLe))[|entries| - 1]
  {
    assert Sorting.TotalPreorder(TotalLe);
    Sorting.SortBySorted(entries, TotalLe);
    SortedEnds(Sorting.SortBy(entries, TotalLe));
  }

  lemma AnnotatedResults(results: seq<CarbonResult>, sorted: seq<CarbonEntry>, minKg: real, maxKg: real, avgKg: real)
    requires sorted != [] && EntriesOf(results) == sorted
    requires minKg == SeqMin(Totals(sorted)) == Totals(sorted)[0]
    requires maxKg == SeqMax(Totals(sorted)) == Totals(sorted)[|sorted| - 1]
    requires avgKg == Mean(Totals(sorted))
    requires forall j :: 0 <= j < |results| ==> results[j] == Annotate(sorted[j], minKg, maxKg, avgKg)
    ensures IsAnnotated(results)
  {
  }

  lemma Statistics(c: Comparison, routeKey: string, weightKg: real, values: seq<real>)
    requires c.results != [] && Totals(EntriesOf(c.results)) == values
    requires c.lowestService == c.results[0].entry.serviceName
    requires c.highestService == c.results[|c.results| - 1].entry.serviceName
    requires c.ecoFriendlyServices == NamesAtMost(c.results, Mean(values))
    requires c.minKg == RoundTo(SeqMin(values), 1000.0) && c.maxKg == RoundTo(SeqMax(values), 1000.0)
    requires c.avgKg == RoundTo(Mean(values), 1000.0)
    requires c.rangeKg == RoundTo(Range(values), 1000.0)
    requires c.routeKey == routeKey && c.weightKg == weightKg
    ensures HasStatistics(c, routeKey, weightKg)
  {
  }

  /** carbon_comparison: an error when no service yields a footprint, which
      happens exactly when the route key, the weight or the route is bad. */
  method CompareCarbon(routeKey: string, weightKg: real) returns (r: Result<Comparison, string>)
    ensures r.Err? <==> !(routeKey != [] && 0.0 < weightKg <= 70.0 && RouteDistances(routeKey).Ok?)
    ensures r.Ok? ==> |r.value.results| == |UpsServices.Services()|
    ensures r.Ok? ==> IsComparisonOf(r.value, CarbonEntries(routeKey, weightKg, UpsServices.Services()), routeKey, weightKg)
  {
    var entries := CollectEntries(routeKey, weightKg, UpsServices.Services());
    CarbonEntriesLength(routeKey, weightKg, UpsServices.Services());
    if |entries| == 0 {
      return Err("No valid carbon calculations could be performed");
    }
    var c := Summarise(entries, routeKey, weightKg);
    return Ok(c);
  }

  /** The lowest-emitting service is labelled most eco-friendly, appears in
      the eco-friendly list and saves the most; the highest saves nothing. */
  lemma ComparisonExtremes(c: Comparison, entries: seq<CarbonEntry>, routeKey: string, weightKg: real)
    requires IsComparisonOf(c, entries, routeKey, weightKg)
    ensures c.results[0].ecoBadge == MostEcoFriendly
    ensures c.lowestService in c.ecoFriendlyServices
    ensures forall i :: 0 <= i < |c.results| ==> c.results[i].savingsPct <= c.results[0].savingsPct
    ensures c.results[|c.results| - 1].savingsPct == 0.0
  {
    var es := EntriesOf(c.results);
    var t := Totals(es);
    var avg := SeqSum(t) / |t| as real;
    assert t[0] in t;
    assert t[0] <= avg by { MeanAtLeastMin(t); }
    assert Total(c.results[0].entry) == t[0];
    forall i | 0 <= i < |c.results| ensures c.results[i].savingsPct <= c.results[0].savingsPct {
      assert t[0] <= t[i] by { assert i == 0 || TotalLe(es[0], es[i]); }
      SavingsAntitone(t[0], t[i], t[|t| - 1]);
    }
    assert RoundTo(0.0, 10.0) == 0.0;
  }

  /** The mean of a non-empty batch is at least its minimum. */
  lemma {:induction false} MeanAtLeastMin(t: seq<real>)
    requires t != []
    ensures SeqMin(t) <= SeqSum(t) / |t| as real
  {
    var m, n := SeqMin(t), |t| as real;
    SumAtLeast(t, m);
    MulDivCancel(m, n);
    DivMonotone(m * n, SeqSum(t), n);
  }

  lemma MulDivCancel(m: real, n: real)
    requires n > 0.0
    ensures (m * n) / n == m
  {
    var q := (m * n) / n;
    assert q * n == m * n;
    assert (q - m) * n == 0.0;
  }

  lemma {:induction false} SumAtLeast(t: seq<real>, m: real)
    requires forall x :: x in t ==> m <= x
    ensures m * |t| as real <= SeqSum(t)
  {
    if t != [] {
      var init := t[..|t| - 1];
      assert forall x :: x in init ==> x in t;
      SumAtLeast(init, m);
      assert t[|t| - 1] in t;
      assert m * |t| as real == m * |init| as real + m;
    }
  }

  /** A smaller total saves at least as much. */
  lemma SavingsAntitone(lo: real, hi: real, maxKg: real)
    requires lo <= hi
    ensures SavingsPct(hi, maxKg) <= SavingsPct(lo, maxKg)
  {
    if maxKg > 0.0 {
      DivMonotone(maxKg - hi, maxKg - lo, maxKg);
      MulMonotone((maxKg - hi) / maxKg, (maxKg - lo) / maxKg, 100.0);
      RoundToMonotone((maxKg - hi) / maxKg * 100.0, (maxKg - lo) / maxKg * 100.0, 10.0);
    }
  }

  /** After sorting, the batch minimum is the first total and the maximum the last. */
  lemma SortedEnds(es: seq<CarbonEntry>)
    requires es != [] && Sorting.SortedBy(es, TotalLe)
    ensures SeqMin(Totals(es)) == Totals(es)[0] && SeqMax(Totals(es)) == Totals(es)[|es| - 1]
  {
    var t := Totals(es);
    assert forall i, j :: 0 <= i < j < |t| ==> t[i] <= t[j] by {
      forall i, j | 0 <= i < j < |t| ensures t[i] <= t[j] {
        assert TotalLe(es[i], es[j]);
      }
    }
    SortedRealEnds(t);
  }

  lemma SortedRealEnds(t: seq<real>)
    requires t != [] && forall i, j :: 0 <= i < j < |t| ==> t[i] <= t[j]
    ensures SeqMin(t) == t[0] && SeqMax(t) == t[|t| - 1]
  {
    var lo := SeqMin(t);
    var hi := SeqMax(t);
    assert t[0] in t && t[|t| - 1] in t;
    var j :| 0 <= j < |t| && t[j] == lo;
    var m :| 0 <= m < |t| && t[m] == hi;
    assert j == 0 || t[0] <= t[j];
    assert m == |t| - 1 || t[m] <= t[|t| - 1];
  }

  /** A lower-case letter that occurs in neither case in `s` is absent from Lower(s). */
  lemma AbsentFromLower(s: string, c: char)
    requires IsLowerLetter(c) && c !in s && UpperChar(c) !in s
    ensures c !in Lower(s)
  {
    var n := Lower(s);
    forall i | 0 <= i < |n| ensures n[i] != c {
      assert s[i] in s;
    }
  }

  /** A "UPS Next Day ..." name without a g runs at the express factor. */
  lemma NextDayEfficiency(name: string)
    requires |name| >= 12 && name[..12] == "UPS Next Day" && 'g' !in name && 'G' !in name
    ensures EfficiencyFactor(name) == ExpressEfficiencyFactor
  {
    var n := Lower(name);
    AbsentFromLower(name, 'g');
    AbsentChar(n, "ground", 0);
    assert n[4..12] == "next day" by {
      forall i | 4 <= i < 12 ensures n[i] == "next day"[i - 4] {
        assert name[i] == name[..12][i];
      }
    }
    ContainsAt(n, "next day", 4);
  }

  /** A name with no g, no x and either no e or no r matches none of the
      ground or express terms. */
  lemma PlainEfficiency(name: string)
    requires 'g' !in name && 'G' !in name && 'x' !in name && 'X' !in name
    requires ('e' !in name && 'E' !in name) || ('r' !in name && 'R' !in name)
    ensures EfficiencyFactor(name) == 1.0
  {
    var n := Lower(name);
    AbsentFromLower(name, 'g');
    AbsentFromLower(name, 'x');
    AbsentChar(n, "ground", 0);
    AbsentChar(n, "next day", 2);
    if 'e' !in name && 'E' !in name {
      AbsentFromLower(name, 'e');
      AbsentChar(n, "early", 0);
      AbsentChar(n, "express", 0);
    } else {
      AbsentFromLower(name, 'r');
      AbsentChar(n, "early", 2);
      AbsentChar(n, "express", 3);
    }
  }

  /** A "UPS Ground" name runs at the ground factor. */
  lemma GroundEfficiency(name: string)
    requires |name| >= 10 && name[..10] == "UPS Ground"
    ensures EfficiencyFactor(name) == GroundEfficiencyFactor
  {
    var n := Lower(name);
    assert n[4..10] == "ground" by {
      forall i | 4 <= i < 10 ensures n[i] == "ground"[i - 4] {
        assert name[i] == name[..10][i];
      }
    }
    ContainsAt(n, "ground", 4);
  }

  /** A pattern with a character the string lacks does not occur in it. */
  lemma AbsentChar(s: string, pat: string, i: nat)
    requires i < |pat| && pat[i] !in s
    ensures !Contains(s, pat)
  {
    if Contains(s, pat) {
      ContainsChars(s, pat);
    }
  }
}
