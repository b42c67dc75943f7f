/** The UPS service catalog, the demo route table, the weight-category
    ladder, and the lookup, calculation and validation helpers built on
    them. */
module UpsServices {
  import opened Base
  import Sorting

  datatype WeightCategory = Envelope | Small | Medium | Large

  datatype EcoBadge = CarbonNeutral | EcoFriendly | Standard

  /** One entry of UPS_SERVICES; `key` is its dictionary key. The free-text
      description is not modelled. */
  datatype Service = Service(
    key: string,
    name: string,
    code: string,
    commitment: string,
    etaHours: int,
    airPct: real,
    truckPct: real,
    baseCostMultiplier: real,
    priority: int,
    ecoBadge: EcoBadge,
    trackingIncluded: bool,
    insuranceIncluded: bool,
    signatureRequired: bool,
    carbonFactorKgPerKm: real)

  datatype Place = Place(city: string, state: string, zipCode: string)

  /** One entry of DEMO_ROUTES, or the synthetic route built when no demo
      route matches (`isFallback`). Hubs and description are not modelled. */
  datatype Route = Route(
    key: string,
    origin: Place,
    destination: Place,
    airKm: real,
    groundKm: real,
    baseCostPerKg: real,
    complexity: string,
    groundDays: int,
    isFallback: bool)

  // ---------------------------------------------------------------------
  // Tables
  // ---------------------------------------------------------------------

  /** UPS_SERVICES in dictionary order. */
  function Services(): seq<Service>
  {
    [NextDayAirEarly(), NextDayAir(), NextDayAirSaver(), SecondDayAir(), ThreeDaySelect(), Ground()]
  }

  function NextDayAirEarly(): Service
  {
    Service("UPS_NEXT_DAY_AIR_EARLY", "UPS Next Day Air Early", "14", "Next Business Day by 8:00 AM",
            14, 95.0, 5.0, 4.5, 1, Standard, true, false, true, 0.85)
  }

  function NextDayAir(): Service
  {
    Service("UPS_NEXT_DAY_AIR", "UPS Next Day Air", "01", "Next Business Day by 10:30 AM",
            16, 90.0, 10.0, 3.8, 2, Standard, true, false, false, 0.78)
  }

  function NextDayAirSaver(): Service
  {
    Service("UPS_NEXT_DAY_AIR_SAVER", "UPS Next Day Air Saver", "13", "Next Business Day by 3:00 PM",
            20, 85.0, 15.0, 3.2, 3, Standard, true, false, false, 0.72)
  }

  function SecondDayAir(): Service
  {
    Service("UPS_2ND_DAY_AIR", "UPS 2nd Day Air", "02", "2 Business Days by 10:30 AM",
            40, 75.0, 25.0, 2.1, 4, EcoFriendly, true, false, false, 0.58)
  }

  function ThreeDaySelect(): Service
  {
    Service("UPS_3_DAY_SELECT", "UPS 3-Day Select", "12", "3 Business Days by End of Day",
            72, 40.0, 60.0, 1.6, 5, EcoFriendly, true, false, false, 0.42)
  }

  function Ground(): Service
  {
    Service("UPS_GROUND", "UPS Ground", "03", "1-5 Business Days",
            120, 5.0, 95.0, 1.0, 6, CarbonNeutral, true, false, false, 0.18)
  }

  function Demo(key: string, oc: string, os: string, oz: string, dc: string, ds: string, dz: string,
                air: real, ground: real, perKg: real, complexity: string, days: int): Route
  {
    Route(key, Place(oc, os, oz), Place(dc, ds, dz), air, ground, perKg, complexity, days, false)
  }

  /** DEMO_ROUTES in dictionary order. */
  function DemoRoutes(): seq<Route>
  {
    [ Demo("NYC_LA", "New York", "NY", "10001", "Los Angeles", "CA", "90210", 3944.0, 4501.0, 8.50, "complex", 5),
      Demo("SF_CHICAGO", "San Francisco", "CA", "94102", "Chicago", "IL", "60601", 2960.0, 3420.0, 7.25, "moderate", 4),
      Demo("MIAMI_SEATTLE", "Miami", "FL", "33101", "Seattle", "WA", "98101", 4308.0, 5145.0, 9.75, "complex", 5),
      Demo("BOSTON_DALLAS", "Boston", "MA", "02101", "Dallas", "TX", "75201", 2563.0, 3089.0, 6.80, "moderate", 3),
      Demo("DENVER_ATLANTA", "Denver", "CO", "80202", "Atlanta", "GA", "30303", 1770.0, 2092.0, 5.90, "simple", 3),
      Demo("PHOENIX_DETROIT", "Phoenix", "AZ", "85001", "Detroit", "MI", "48201", 2570.0, 2890.0, 7.10, "moderate", 4),
      Demo("PORTLAND_HOUSTON", "Portland", "OR", "97201", "Houston", "TX", "77001", 2890.0, 3420.0, 7.80, "moderate", 4),
      Demo("ORLANDO_MINNEAPOLIS", "Orlando", "FL", "32801", "Minneapolis", "MN", "55401", 1890.0, 2245.0, 6.20, "simple", 3),
      Demo("SALT_LAKE_CITY_PHILADELPHIA", "Salt Lake City", "UT", "84101", "Philadelphia", "PA", "19101",
           2890.0, 3380.0, 7.60, "moderate", 4),
      Demo("NASHVILLE_SAN_DIEGO", "Nashville", "TN", "37201", "San Diego", "CA", "92101", 2780.0, 3290.0, 7.40, "moderate", 4),
      Demo("CHARLOTTE_KANSAS_CITY", "Charlotte", "NC", "28201", "Kansas City", "MO", "64101", 1120.0, 1340.0, 4.80, "simple", 2),
      Demo("SACRAMENTO_MEMPHIS", "Sacramento", "CA", "95814", "Memphis", "TN", "38101", 2650.0, 3120.0, 7.20, "moderate", 4),
      Demo("BUFFALO_ALBUQUERQUE", "Buffalo", "NY", "14201", "Albuquerque", "NM", "87101", 2420.0, 2890.0, 6.90, "moderate", 4),
      Demo("RICHMOND_MILWAUKEE", "Richmond", "VA", "23219", "Milwaukee", "WI", "53201", 1180.0, 1420.0, 5.10, "simple", 2),
      Demo("TUCSON_COLUMBUS", "Tucson", "AZ", "85701", "Columbus", "OH", "43215", 2340.0, 2780.0, 6.70, "moderate", 3) ]
  }

  function SumAirKm(routes: seq<Route>): real
  {
    if routes == [] then 0.0 else SumAirKm(routes[..|routes| - 1]) + routes[|routes| - 1].airKm
  }

  function SumGroundKm(routes: seq<Route>): real
  {
    if routes == [] then 0.0 else SumGroundKm(routes[..|routes| - 1]) + routes[|routes| - 1].groundKm
  }

  function SumBaseCostPerKg(routes: seq<Route>): real
  {
    if routes == [] then 0.0 else SumBaseCostPerKg(routes[..|routes| - 1]) + routes[|routes| - 1].baseCostPerKg
  }

  /** The means over DEMO_ROUTES that stand in for a route that is not listed. */
  function MeanAirKm(): real { SumAirKm(DemoRoutes()) / |DemoRoutes()| as real }

  function MeanGroundKm(): real { SumGroundKm(DemoRoutes()) / |DemoRoutes()| as real }

  function MeanBaseCostPerKg(): real { SumBaseCostPerKg(DemoRoutes()) / |DemoRoutes()| as real }

  /** The demo-route means: 38275/15 km by air, 45022/15 km by ground and
      7.00 per kg. */
  lemma DemoRouteMeans()
    ensures MeanAirKm() == 38275.0 / 15.0
    ensures MeanGroundKm() == 45022.0 / 15.0
    ensures MeanBaseCostPerKg() == 7.0
  {
    DemoAirSum();
    DemoGroundSum();
    DemoBaseCostSum();
  }

  lemma DemoAirSum()
    ensures SumAirKm(DemoRoutes()) == 38275.0
  {
    var rs := DemoRoutes();
    assert rs[..15] == rs;
    AirSumStep(rs, 0);
    AirSumStep(rs, 1);
    AirSumStep(rs, 2);
    AirSumStep(rs, 3);
    AirSumStep(rs, 4);
    AirSumStep(rs, 5);
    AirSumStep(rs, 6);
    AirSumStep(rs, 7);
    AirSumStep(rs, 8);
    AirSumStep(rs, 9);
    AirSumStep(rs, 10);
    AirSumStep(rs, 11);
    AirSumStep(rs, 12);
    AirSumStep(rs, 13);
    AirSumStep(rs, 14);
  }

  lemma AirSumStep(rs: seq<Route>, k: nat)
    requires k < |rs|
    ensures SumAirKm(rs[..k + 1]) == SumAirKm(rs[..k]) + rs[k].airKm
  {
    assert rs[..k + 1][..k] == rs[..k];
  }

  lemma DemoGroundSum()
    ensures SumGroundKm(DemoRoutes()) == 45022.0
  {
    var rs := DemoRoutes();
    assert rs[..15] == rs;
    GroundSumStep(rs, 0);
    GroundSumStep(rs, 1);
    GroundSumStep(rs, 2);
    GroundSumStep(rs, 3);
    GroundSumStep(rs, 4);
    GroundSumStep(rs, 5);
    GroundSumStep(rs, 6);
    GroundSumStep(rs, 7);
    GroundSumStep(rs, 8);
    GroundSumStep(rs, 9);
    GroundSumStep(rs, 10);
    GroundSumStep(rs, 11);
    GroundSumStep(rs, 12);
    GroundSumStep(rs, 13);
    GroundSumStep(rs, 14);
  }

  lemma GroundSumStep(rs: seq<Route>, k: nat)
    requires k < |rs|
    ensures SumGroundKm(rs[..k + 1]) == SumGroundKm(rs[..k]) + rs[k].groundKm
  {
    assert rs[..k + 1][..k] == rs[..k];
  }

  lemma DemoBaseCostSum()
    ensures SumBaseCostPerKg(DemoRoutes()) == 105.0
  {
    var rs := DemoRoutes();
    assert rs[..15] == rs;
    BaseCostSumStep(rs, 0);
    BaseCostSumStep(rs, 1);
    BaseCostSumStep(rs, 2);
    BaseCostSumStep(rs, 3);
    BaseCostSumStep(rs, 4);
    BaseCostSumStep(rs, 5);
    BaseCostSumStep(rs, 6);
    BaseCostSumStep(rs, 7);
    BaseCostSumStep(rs, 8);
    BaseCostSumStep(rs, 9);
    BaseCostSumStep(rs, 10);
    BaseCostSumStep(rs, 11);
    BaseCostSumStep(rs, 12);
    BaseCostSumStep(rs, 13);
    BaseCostSumStep(rs, 14);
  }

  lemma BaseCostSumStep(rs: seq<Route>, k: nat)
    requires k < |rs|
    ensures SumBaseCostPerKg(rs[..k + 1]) == SumBaseCostPerKg(rs[..k]) + rs[k].baseCostPerKg
  {
    assert rs[..k + 1][..k] == rs[..k];
  }

  /** Every demo route has a key, so a route found by city is one the
      carbon calculator can look up by key. */
  lemma DemoRouteKeys()
    ensures forall i :: 0 <= i < |DemoRoutes()| ==> DemoRoutes()[i].key != []
  {
  }

  /** WEIGHT_CATEGORIES in dictionary order. */
  function Categories(): seq<WeightCategory>
  {
    [Envelope, Small, Medium, Large]
  }

  function MaxWeightKg(c: WeightCategory): real
  {
    match c
    case Envelope => 0.5
    case Small => 2.0
    case Medium => 10.0
    case Large => 70.0
  }

  function CostAdjustment(c: WeightCategory): real
  {
    match c
    case Envelope => 0.8
    case Small => 0.9
    case Medium => 1.0
    case Large => 1.2
  }

  /** Facts about the service table that the rest of the engine relies on:
      the transport mix of every service is complete, priorities number the
      services in order, and a later service is slower and cheaper. */
  lemma CatalogShape()
    ensures |Services()| == 6
    ensures forall i :: 0 <= i < 6 ==> Services()[i].airPct + Services()[i].truckPct == 100.0
    ensures forall i :: 0 <= i < 6 ==> Services()[i].priority == i + 1
    ensures forall i, j :: 0 <= i < j < 6 ==>
              Services()[i].etaHours < Services()[j].etaHours
              && Services()[i].baseCostMultiplier > Services()[j].baseCostMultiplier
    ensures forall i, j :: 0 <= i < j < 6 ==>
              Services()[i].key != Services()[j].key && Services()[i].code != Services()[j].code
              && Services()[i].name != Services()[j].name
  {
  }

  /** The catalog lists services from fastest to slowest, Next Day Air Early first. */
  lemma CatalogByDeliveryTime()
    ensures |Services()| == 6 && Services()[0].name == "UPS Next Day Air Early"
    ensures forall i, j :: 0 <= i < j < |Services()| ==> Services()[i].etaHours < Services()[j].etaHours
  {
    CatalogShape();
  }

  // ---------------------------------------------------------------------
  // UPSDataLookup
  // ---------------------------------------------------------------------

  /** get_service_by_code: the first service with that code, or None. */
  function GetServiceByCode(code: string): (r: Option<Service>)
    ensures r.Some? ==> r.value in Services() && r.value.code == code
    ensures r.None? <==> forall i :: 0 <= i < |Services()| ==> Services()[i].code != code
    ensures r.Some? ==> (exists i :: 0 <= i < |Services()| && Services()[i] == r.value
                           && forall j :: 0 <= j < i ==> Services()[j].code != code)
  {
    ServiceWithCode(Services(), code)
  }

  /** The first service of `ss` with that code. */
  function ServiceWithCode(ss: seq<Service>, code: string): (r: Option<Service>)
    ensures r.Some? ==> r.value in ss && r.value.code == code
    ensures r.None? <==> forall i :: 0 <= i < |ss| ==> ss[i].code != code
    ensures r.Some? ==> (exists i :: 0 <= i < |ss| && ss[i] == r.value
                           && forall j :: 0 <= j < i ==> ss[j].code != code)
  {
    match FirstIndex(ss, (s: Service) => s.code == code)
    case None => None
    case Some(i) => Some(ss[i])
  }

  /** get_service_by_name: the first service with that name, or None. */
  function GetServiceByName(name: string): (r: Option<Service>)
    ensures r.Some? ==> r.value in Services() && r.value.name == name
    ensures r.None? <==> forall i :: 0 <= i < |Services()| ==> Services()[i].name != name
    ensures r.Some? ==> (exists i :: 0 <= i < |Services()| && Services()[i] == r.value
                           && forall j :: 0 <= j < i ==> Services()[j].name != name)
  {
    ServiceWithName(Services(), name)
  }

  /** The first service of `ss` with that name. */
  function ServiceWithName(ss: seq<Service>, name: string): (r: Option<Service>)
    ensures r.Some? ==> r.value in ss && r.value.name == name
    ensures r.None? <==> forall i :: 0 <= i < |ss| ==> ss[i].name != name
    ensures r.Some? ==> (exists i :: 0 <= i < |ss| && ss[i] == r.value
                           && forall j :: 0 <= j < i ==> ss[j].name != name)
  {
    match FirstIndex(ss, (s: Service) => s.name == name)
    case None => None
    case Some(i) => Some(ss[i])
  }

  predicate PriorityLe(a: Service, b: Service) { a.priority <= b.priority }

  /** get_services_by_priority: the catalog sorted by priority level. */
  function GetServicesByPriority(): seq<Service>
  {
    Sorting.SortBy(Services(), PriorityLe)
  }

  /** The catalog is already in priority order, so the stable sort returns it
      as it is: the fastest service first and Ground last. */
  lemma ServicesByPriorityIsCatalogOrder()
    ensures GetServicesByPriority() == Services()
    ensures Sorting.SortedBy(GetServicesByPriority(), PriorityLe)
  {
    CatalogShape();
    NumberedByPriorityIsSorted(Services());
  }

  /** Services numbered 1, 2, 3, ... in order are already sorted by priority. */
  lemma NumberedByPriorityIsSorted(ss: seq<Service>)
    requires forall i :: 0 <= i < |ss| ==> ss[i].priority == i + 1
    ensures Sorting.SortedBy(ss, PriorityLe) && Sorting.SortBy(ss, PriorityLe) == ss
  {
    Sorting.SortBySortedInput(ss, PriorityLe);
  }

  predicate HasEcoBadge(s: Service)
  {
    s.ecoBadge == EcoFriendly || s.ecoBadge == CarbonNeutral
  }

  /** The services among `ss` with an eco-friendly or carbon-neutral badge, in order. */
  function EcoFriendlyOf(ss: seq<Service>): (r: seq<Service>)
    ensures forall s :: s in r <==> s in ss && HasEcoBadge(s)
  {
    if ss == [] then []
    else EcoFriendlyOf(ss[..|ss| - 1]) + (if HasEcoBadge(ss[|ss| - 1]) then [ss[|ss| - 1]] else [])
  }

  /** get_eco_friendly_services */
  method GetEcoFriendlyServices() returns (r: seq<Service>)
    ensures r == EcoFriendlyOf(Services())
  {
    var ss := Services();
    r := [];
    var i := 0;
    while i < |ss|
      invariant 0 <= i <= |ss|
      invariant r == EcoFriendlyOf(ss[..i])
    {
      assert ss[..i + 1][..i] == ss[..i];
      if ss[i].ecoBadge in [EcoBadge.EcoFriendly, EcoBadge.CarbonNeutral] {
        r := r + [ss[i]];
      }
      i := i + 1;
    }
    assert ss[..|ss|] == ss;
  }

  /** A run without badges followed by a run with them filters to the second run. */
  lemma {:induction false} EcoFriendlyOfSplit(p: seq<Service>, q: seq<Service>)
    requires forall i :: 0 <= i < |p| ==> !HasEcoBadge(p[i])
    requires forall i :: 0 <= i < |q| ==> HasEcoBadge(q[i])
    ensures EcoFriendlyOf(p + q) == q
    decreases |q|
  {
    if q == [] {
      assert p + q == p;
      EcoFriendlyOfNone(p);
    } else {
      var q' := q[..|q| - 1];
      assert (p + q)[..|p + q| - 1] == p + q';
      EcoFriendlyOfSplit(p, q');
      assert q' + [q[|q| - 1]] == q;
    }
  }

  lemma {:induction false} EcoFriendlyOfNone(p: seq<Service>)
    requires forall i :: 0 <= i < |p| ==> !HasEcoBadge(p[i])
    ensures EcoFriendlyOf(p) == []
  {
    if p != [] {
      EcoFriendlyOfNone(p[..|p| - 1]);
    }
  }

  /** Only the three slower services carry an eco badge. */
  lemma EcoFriendlyServicesAreTheSlowOnes()
    ensures EcoFriendlyOf(Services()) == Services()[3..]
  {
    var ss := Services();
    EcoFriendlyOfSplit(ss[..3], ss[3..]);
    assert ss[..3] + ss[3..] == ss;
  }

  /** `r` is one of the DEMO_ROUTES entries. */
  predicate IsDemoRoute(r: Route)
  {
    r in DemoRoutes()
  }

  /** A demo route is not a fallback route, has a key, and is found again
      by that key. */
  lemma DemoRouteFacts(r: Route)
    requires IsDemoRoute(r)
    ensures !r.isFallback && r.key != [] && GetRouteByKey(r.key).Some?
  {
    DemoRouteKeys();
  }

  predicate CitiesMatch(r: Route, origin: string, destination: string)
  {
    EqualIgnoringCase(r.origin.city, origin) && EqualIgnoringCase(r.destination.city, destination)
  }

  /** find_route_by_cities: the first demo route leaving `origin` for
      `destination`, compared case-insensitively and in that direction only. */
  function FindRouteByCities(origin: string, destination: string): (r: Option<Route>)
    ensures r.Some? ==> IsDemoRoute(r.value) && CitiesMatch(r.value, origin, destination)
  {
    FindRouteIn(DemoRoutes(), origin, destination)
  }

  /** The first route of `routes` leaving `origin` for `destination`. */
  function FindRouteIn(routes: seq<Route>, origin: string, destination: string): (r: Option<Route>)
    ensures r.Some? ==> r.value in routes && CitiesMatch(r.value, origin, destination)
  {
    match FirstIndex(routes, (rt: Route) => CitiesMatch(rt, origin, destination))
    case None => None
    case Some(i) => Some(routes[i])
  }

  /** Nothing is found exactly when no route leaves `origin` for
      `destination`; otherwise the first such route is returned. */
  lemma FindRouteInFirst(routes: seq<Route>, origin: string, destination: string)
    ensures FindRouteIn(routes, origin, destination).None? <==>
              forall i :: 0 <= i < |routes| ==> !CitiesMatch(routes[i], origin, destination)
    ensures FindRouteIn(routes, origin, destination).Some? ==>
              exists i :: 0 <= i < |routes| && FindRouteIn(routes, origin, destination).value == routes[i]
                          && forall j :: 0 <= j < i ==> !CitiesMatch(routes[j], origin, destination)
  {
  }

  /** The same for the demo routes. */
  lemma FindRouteByCitiesFirst(origin: string, destination: string)
    ensures FindRouteByCities(origin, destination).None? <==>
              forall i :: 0 <= i < |DemoRoutes()| ==> !CitiesMatch(DemoRoutes()[i], origin, destination)
    ensures FindRouteByCities(origin, destination).Some? ==>
              exists i :: 0 <= i < |DemoRoutes()| && FindRouteByCities(origin, destination).value == DemoRoutes()[i]
                          && forall j :: 0 <= j < i ==> !CitiesMatch(DemoRoutes()[j], origin, destination)
  {
    FindRouteInFirst(DemoRoutes(), origin, destination);
  }

  /** Matching ignores case. */
  lemma FindRouteIgnoresCase()
    ensures FindRouteByCities("new york", "LOS ANGELES") == Some(DemoRoutes()[0])
  {
    assert CitiesMatch(DemoRoutes()[0], "new york", "LOS ANGELES");
  }

  lemma OriginInitials()
    ensures forall i :: 0 <= i < |DemoRoutes()| ==>
              DemoRoutes()[i].origin.city != [] && IsUpperLetter(DemoRoutes()[i].origin.city[0])
              && DemoRoutes()[i].origin.city[0] != 'L'
  {
  }

  /** Matching is directional: no demo route leaves Los Angeles. */
  lemma FindRouteIsDirectional()
    ensures FindRouteByCities("Los Angeles", "New York").None?
  {
    OriginInitials();
    NoRouteFrom(DemoRoutes(), "Los Angeles", "New York");
    FindRouteByCitiesFirst("Los Angeles", "New York");
  }

  /** No route whose origin starts with an upper-case letter other than L
      leaves a city whose name starts with L. */
  lemma NoRouteFrom(routes: seq<Route>, origin: string, destination: string)
    requires origin != [] && origin[0] == 'L'
    requires forall i :: 0 <= i < |routes| ==>
               routes[i].origin.city != [] && IsUpperLetter(routes[i].origin.city[0])
               && routes[i].origin.city[0] != 'L'
    ensures forall i :: 0 <= i < |routes| ==> !CitiesMatch(routes[i], origin, destination)
  {
    forall i | 0 <= i < |routes|
      ensures !CitiesMatch(routes[i], origin, destination)
    {
      var city := routes[i].origin.city;
      assert LowerChar(city[0]) != LowerChar(origin[0]);
    }
  }

  /** get_route_by_key: DEMO_ROUTES.get(key). */
  function GetRouteByKey(key: string): (r: Option<Route>)
    ensures r.Some? ==> IsDemoRoute(r.value) && r.value.key == key
    ensures r.None? <==> forall i :: 0 <= i < |DemoRoutes()| ==> DemoRoutes()[i].key != key
  {
    RouteWithKey(DemoRoutes(), key)
  }

  /** The first route of `routes` with that key. */
  function RouteWithKey(routes: seq<Route>, key: string): (r: Option<Route>)
    ensures r.Some? ==> r.value in routes && r.value.key == key
    ensures r.None? <==> forall i :: 0 <= i < |routes| ==> routes[i].key != key
  {
    match FirstIndex(routes, (rt: Route) => rt.key == key)
    case None => None
    case Some(i) => Some(routes[i])
  }

  /** get_all_route_keys */
  function GetAllRouteKeys(): (keys: seq<string>)
    ensures |keys| == |DemoRoutes()|
    ensures forall i :: 0 <= i < |keys| ==> GetRouteByKey(keys[i]).Some?
  {
    seq(|DemoRoutes()|, i requires 0 <= i < |DemoRoutes()| => DemoRoutes()[i].key)
  }

  /** get_weight_category_for_weight: the first category, lightest first,
      whose maximum weight the package does not exceed; Large beyond them all. */
  function WeightCategoryFor(weightKg: real): (c: WeightCategory)
    ensures c == Envelope <==> weightKg <= 0.5
    ensures c == Small <==> 0.5 < weightKg <= 2.0
    ensures c == Medium <==> 2.0 < weightKg <= 10.0
    ensures c == Large <==> 10.0 < weightKg
  {
    match FirstIndex(Categories(), (c: WeightCategory) => weightKg <= MaxWeightKg(c))
    case None => Large
    case Some(i) => Categories()[i]
  }

  /** A heavier package never falls into a category with a smaller price adjustment. */
  lemma CostAdjustmentMonotone(w1: real, w2: real)
    requires w1 <= w2
    ensures CostAdjustment(WeightCategoryFor(w1)) <= CostAdjustment(WeightCategoryFor(w2))
    ensures CostAdjustment(WeightCategoryFor(w1)) > 0.0
  {
  }

  // ---------------------------------------------------------------------
  // UPSCalculationHelpers
  // ---------------------------------------------------------------------

  const MinimumBaseCost: real := 5.00

  /** calculate_base_shipping_cost: the adjusted weight-times-rate cost,
      never below the 5.00 minimum. */
  function BaseShippingCost(weightKg: real, costPerKg: real, multiplier: real, category: WeightCategory): (r: real)
    ensures r >= MinimumBaseCost
    ensures r >= weightKg * costPerKg * multiplier * CostAdjustment(category)
    ensures r == MinimumBaseCost || r == weightKg * costPerKg * multiplier * CostAdjustment(category)
  {
    Max(weightKg * costPerKg * multiplier * CostAdjustment(category), MinimumBaseCost)
  }

  datatype EmissionSplit = EmissionSplit(totalCo2Kg: real, airCo2Kg: real, groundCo2Kg: real, co2PerKm: real)

  const AirCarbonFactor: real := 0.85
  const GroundCarbonFactor: real := 0.18

  function AirCo2(distanceKm: real, airPct: real, weightKg: real): real
  {
    distanceKm * (airPct / 100.0) * weightKg * AirCarbonFactor
  }

  function GroundCo2(distanceKm: real, groundPct: real, weightKg: real): real
  {
    distanceKm * (groundPct / 100.0) * weightKg * GroundCarbonFactor
  }

  /** kg of CO2 per km and per kg of cargo for a transport mix given in
      percent: the air and ground factors weighted by their shares. */
  function MixRate(airPct: real, groundPct: real): real
  {
    (AirCarbonFactor * airPct + GroundCarbonFactor * groundPct) / 100.0
  }

  /** calculate_carbon_emissions. The `carbonFactor` argument is accepted
      and ignored, as in the source: the per-mode factors are fixed. */
  function CarbonEmissions(distanceKm: real, airPct: real, groundPct: real, weightKg: real, carbonFactor: real)
    : (r: EmissionSplit)
    ensures r.airCo2Kg == RoundTo(AirCo2(distanceKm, airPct, weightKg), 1000.0)
    ensures r.groundCo2Kg == RoundTo(GroundCo2(distanceKm, groundPct, weightKg), 1000.0)
    ensures r.totalCo2Kg == RoundTo(distanceKm * weightKg * MixRate(airPct, groundPct), 1000.0)
    ensures -0.001 <= r.totalCo2Kg - (r.airCo2Kg + r.groundCo2Kg) <= 0.001
    ensures distanceKm > 0.0 ==> r.co2PerKm == RoundTo(weightKg * MixRate(airPct, groundPct), 10000.0)
    ensures distanceKm <= 0.0 ==> r.co2PerKm == 0.0
    ensures distanceKm >= 0.0 && airPct >= 0.0 && groundPct >= 0.0 && weightKg >= 0.0 ==>
              r.totalCo2Kg >= 0.0 && r.airCo2Kg >= 0.0 && r.groundCo2Kg >= 0.0 && r.co2PerKm >= 0.0
  {
    var air := AirCo2(distanceKm, airPct, weightKg);
    var ground := GroundCo2(distanceKm, groundPct, weightKg);
    var total := air + ground;
    RoundSumClose(air, ground);
    EmissionFacts(distanceKm, airPct, groundPct, weightKg);
    EmissionSplit(
      RoundTo(total, 1000.0), RoundTo(air, 1000.0), RoundTo(ground, 1000.0),
      if distanceKm > 0.0 then RoundTo(total / distanceKm, 10000.0) else 0.0)
  }

  /** The two legs add up to distance times weight times the mix rate, and
      every rounded figure of non-negative inputs is non-negative. */
  lemma EmissionFacts(distanceKm: real, airPct: real, groundPct: real, weightKg: real)
    ensures AirCo2(distanceKm, airPct, weightKg) + GroundCo2(distanceKm, groundPct, weightKg)
            == distanceKm * weightKg * MixRate(airPct, groundPct)
    ensures distanceKm > 0.0 ==>
              (AirCo2(distanceKm, airPct, weightKg) + GroundCo2(distanceKm, groundPct, weightKg)) / distanceKm
              == weightKg * MixRate(airPct, groundPct)
    ensures distanceKm >= 0.0 && airPct >= 0.0 && groundPct >= 0.0 && weightKg >= 0.0 ==>
              RoundTo(AirCo2(distanceKm, airPct, weightKg), 1000.0) >= 0.0
              && RoundTo(GroundCo2(distanceKm, groundPct, weightKg), 1000.0) >= 0.0
              && RoundTo(distanceKm * weightKg * MixRate(airPct, groundPct), 1000.0) >= 0.0
              && RoundTo(weightKg * MixRate(airPct, groundPct), 10000.0) >= 0.0
  {
    LegsSum(distanceKm, airPct, groundPct, weightKg);
    if distanceKm > 0.0 {
      PerKmOfLegs(distanceKm, airPct, groundPct, weightKg);
    }
    if distanceKm >= 0.0 && airPct >= 0.0 && groundPct >= 0.0 && weightKg >= 0.0 {
      RoundedEmissionsNonNegative(distanceKm, airPct, groundPct, weightKg);
    }
  }

  /** CO2 per km of a positive distance is weight times the mix rate. */
  lemma PerKmOfLegs(distanceKm: real, airPct: real, groundPct: real, weightKg: real)
    requires distanceKm > 0.0
    ensures (AirCo2(distanceKm, airPct, weightKg) + GroundCo2(distanceKm, groundPct, weightKg)) / distanceKm
            == weightKg * MixRate(airPct, groundPct)
  {
    LegsSum(distanceKm, airPct, groundPct, weightKg);
    PerKm(distanceKm, weightKg, MixRate(airPct, groundPct));
  }

  /** Non-negative inputs give non-negative rounded figures. */
  lemma RoundedEmissionsNonNegative(distanceKm: real, airPct: real, groundPct: real, weightKg: real)
    requires distanceKm >= 0.0 && airPct >= 0.0 && groundPct >= 0.0 && weightKg >= 0.0
    ensures RoundTo(AirCo2(distanceKm, airPct, weightKg), 1000.0) >= 0.0
    ensures RoundTo(GroundCo2(distanceKm, groundPct, weightKg), 1000.0) >= 0.0
    ensures RoundTo(distanceKm * weightKg * MixRate(airPct, groundPct), 1000.0) >= 0.0
    ensures RoundTo(weightKg * MixRate(airPct, groundPct), 10000.0) >= 0.0
  {
    LegNonNegative(distanceKm, airPct, weightKg, AirCarbonFactor);
    LegNonNegative(distanceKm, groundPct, weightKg, GroundCarbonFactor);
    RoundToNonNegative(AirCo2(distanceKm, airPct, weightKg), 1000.0);
    RoundToNonNegative(GroundCo2(distanceKm, groundPct, weightKg), 1000.0);
    RateNonNegative(distanceKm, weightKg, MixRate(airPct, groundPct));
    RoundToNonNegative(distanceKm * weightKg * MixRate(airPct, groundPct), 1000.0);
    RoundToNonNegative(weightKg * MixRate(airPct, groundPct), 10000.0);
  }

  /** Dividing a product by its positive first factor. */
  lemma PerKm(d: real, w: real, rate: real)
    requires d > 0.0
    ensures (d * w * rate) / d == w * rate
  {
    assert d * w * rate == (w * rate) * d;
  }

  /** One leg of non-negative inputs emits a non-negative amount. */
  lemma LegNonNegative(d: real, pct: real, w: real, factor: real)
    requires d >= 0.0 && pct >= 0.0 && w >= 0.0 && factor >= 0.0
    ensures d * (pct / 100.0) * w * factor >= 0.0
  {
    MulMonotone(0.0, d, pct / 100.0);
    MulMonotone(0.0, d * (pct / 100.0), w);
    MulMonotone(0.0, d * (pct / 100.0) * w, factor);
  }

  /** Products of non-negative factors are non-negative. */
  lemma RateNonNegative(d: real, w: real, rate: real)
    requires d >= 0.0 && w >= 0.0 && rate >= 0.0
    ensures d * w * rate >= 0.0 && w * rate >= 0.0
  {
    MulMonotone(0.0, d, w);
    MulMonotone(0.0, d * w, rate);
    MulMonotone(0.0, w, rate);
  }

  /** The air and ground legs regroup into one product with the mix rate. */
  lemma LegsSum(distanceKm: real, airPct: real, groundPct: real, weightKg: real)
    ensures AirCo2(distanceKm, airPct, weightKg) + GroundCo2(distanceKm, groundPct, weightKg)
            == distanceKm * weightKg * MixRate(airPct, groundPct)
  {
    var dw := distanceKm * weightKg;
    assert AirCo2(distanceKm, airPct, weightKg) == dw * (AirCarbonFactor * airPct / 100.0);
    assert GroundCo2(distanceKm, groundPct, weightKg) == dw * (GroundCarbonFactor * groundPct / 100.0);
    assert dw * (AirCarbonFactor * airPct / 100.0) + dw * (GroundCarbonFactor * groundPct / 100.0)
           == dw * MixRate(airPct, groundPct);
  }

  /** For a fixed leg and transport mix, a heavier package never reports
      less CO2, and the total is never negative. */
  lemma CarbonEmissionsMonotoneInWeight(distanceKm: real, airPct: real, groundPct: real, w1: real, w2: real, f: real)
    requires distanceKm >= 0.0 && airPct >= 0.0 && groundPct >= 0.0 && 0.0 <= w1 <= w2
    ensures 0.0 <= CarbonEmissions(distanceKm, airPct, groundPct, w1, f).totalCo2Kg
    ensures CarbonEmissions(distanceKm, airPct, groundPct, w1, f).totalCo2Kg
            <= CarbonEmissions(distanceKm, airPct, groundPct, w2, f).totalCo2Kg
  {
    var k := distanceKm * (airPct / 100.0) * AirCarbonFactor + distanceKm * (groundPct / 100.0) * GroundCarbonFactor;
    assert k >= 0.0;
    assert AirCo2(distanceKm, airPct, w1) + GroundCo2(distanceKm, groundPct, w1) == w1 * k;
    assert AirCo2(distanceKm, airPct, w2) + GroundCo2(distanceKm, groundPct, w2) == w2 * k;
    MulMonotone(w1, w2, k);
    MulMonotone(0.0, w1, k);
    RoundToMonotone(0.0, w1 * k, 1000.0);
    RoundToMonotone(w1 * k, w2 * k, 1000.0);
  }

  /** determine_eco_badge */
  function DetermineEcoBadge(carbonPerKg: real, airPct: real): (b: EcoBadge)
    ensures b == CarbonNeutral <==> airPct <= 10.0 && carbonPerKg <= 0.25
    ensures b == EcoFriendly <==> !(airPct <= 10.0 && carbonPerKg <= 0.25) && airPct <= 50.0 && carbonPerKg <= 0.60
  {
    if airPct <= 10.0 && carbonPerKg <= 0.25 then CarbonNeutral
    else if airPct <= 50.0 && carbonPerKg <= 0.60 then EcoFriendly
    else Standard
  }

  function BadgeRank(b: EcoBadge): int
  {
    match b
    case CarbonNeutral => 2
    case EcoFriendly => 1
    case Standard => 0
  }

  /** Less carbon and less air freight never earn a weaker badge. */
  lemma EcoBadgeMonotone(c1: real, a1: real, c2: real, a2: real)
    requires c1 <= c2 && a1 <= a2
    ensures BadgeRank(DetermineEcoBadge(c1, a1)) >= BadgeRank(DetermineEcoBadge(c2, a2))
  {
  }

  function ComplexityAdjustment(complexity: string): int
  {
    if complexity == "simple" then 0
    else if complexity == "moderate" then 4
    else if complexity == "complex" then 8
    else 0
  }

  function WeightAdjustment(c: WeightCategory): int
  {
    match c
    case Envelope => -2
    case Small => 0
    case Medium => 2
    case Large => 6
  }

  /** calculate_delivery_eta_hours: the base ETA shifted by route complexity
      and package size, never below one hour. */
  function DeliveryEtaHours(baseEtaHours: int, complexity: string, category: WeightCategory): (r: int)
    ensures r >= 1
    ensures r >= baseEtaHours + ComplexityAdjustment(complexity) + WeightAdjustment(category)
    ensures r == 1 || r == baseEtaHours + ComplexityAdjustment(complexity) + WeightAdjustment(category)
  {
    var adjusted := baseEtaHours + ComplexityAdjustment(complexity) + WeightAdjustment(category);
    if adjusted >= 1 then adjusted else 1
  }

  /** A heavier package never gets an earlier ETA on the same route and service. */
  lemma EtaMonotoneInWeight(baseEtaHours: int, complexity: string, w1: real, w2: real)
    requires w1 <= w2
    ensures DeliveryEtaHours(baseEtaHours, complexity, WeightCategoryFor(w1))
            <= DeliveryEtaHours(baseEtaHours, complexity, WeightCategoryFor(w2))
  {
  }

  /** get_business_days_from_hours: hours over 8-hour days, plus two
      weekend days per whole 5-day week, truncated, and at least one. */
  function BusinessDaysFromHours(hours: int): (r: int)
    ensures r >= 1
  {
    var days := hours as real / 8.0;
    var weeks := days / 5.0;
    var weekendDays := Trunc(weeks) * 2;
    var total := days + weekendDays as real;
    if Trunc(total) >= 1 then Trunc(total) else 1
  }

  /** More hours never mean fewer calendar days. */
  lemma BusinessDaysFromHoursMonotone(h1: int, h2: int)
    requires 0 <= h1 <= h2
    ensures BusinessDaysFromHours(h1) <= BusinessDaysFromHours(h2)
  {
    var d1 := h1 as real / 8.0;
    var d2 := h2 as real / 8.0;
    DivMonotone(h1 as real, h2 as real, 8.0);
    DivMonotone(d1, d2, 5.0);
    FloorMonotone(d1 / 5.0, d2 / 5.0);
    var t1 := d1 + (Trunc(d1 / 5.0) * 2) as real;
    var t2 := d2 + (Trunc(d2 / 5.0) * 2) as real;
    assert 0.0 <= t1 <= t2;
    FloorMonotone(t1, t2);
  }

  // ---------------------------------------------------------------------
  // UPSValidationHelpers
  // ---------------------------------------------------------------------

  datatype AvailabilityError =
    | ServiceCodeNotFound(code: string)
    | OverweightForService(weightKg: real, serviceName: string)
    | RegionRestricted(serviceName: string)

  predicate InRestrictedRegion(originState: string, destinationState: string)
  {
    originState in ["AK", "HI"] || destinationState in ["AK", "HI"]
  }

  /** validate_service_availability */
  method ValidateServiceAvailability(code: string, originState: string, destinationState: string, weightKg: real)
    returns (ok: bool, errors: seq<AvailabilityError>)
    ensures ok <==> errors == []
    ensures GetServiceByCode(code).None? ==> errors == [ServiceCodeNotFound(code)]
    ensures GetServiceByCode(code).Some? ==>
              RestrictionsReported(errors, code, GetServiceByCode(code).value.name, originState, destinationState, weightKg)
  {
    var service := GetServiceByCode(code);
    if service.None? {
      errors := [ServiceCodeNotFound(code)];
      return false, errors;
    }
    errors := CheckRestrictions(code, service.value.name, originState, destinationState, weightKg);
    ok := |errors| == 0;
  }

  /** The errors for a known service: the overweight error exactly when
      an early-morning or next-day service (codes 14 and 01) carries more
      than 68 kg, the region error exactly when code 14 or 13 goes to or
      from Alaska or Hawaii, in that order, and nothing else. */
  ghost predicate RestrictionsReported(errors: seq<AvailabilityError>, code: string, name: string,
                                       originState: string, destinationState: string, weightKg: real)
  {
    |errors| <= 2
    && (OverweightForService(weightKg, name) in errors <==> (code == "14" || code == "01") && weightKg > 68.0)
    && (RegionRestricted(name) in errors <==>
          InRestrictedRegion(originState, destinationState) && (code == "14" || code == "13"))
    && (forall e :: e in errors ==> e == OverweightForService(weightKg, name) || e == RegionRestricted(name))
    && (|errors| == 2 ==> errors[0].OverweightForService?)
  }

  /** The weight and region checks of validate_service_availability. */
  method CheckRestrictions(code: string, name: string, originState: string, destinationState: string, weightKg: real)
    returns (errors: seq<AvailabilityError>)
    ensures RestrictionsReported(errors, code, name, originState, destinationState, weightKg)
  {
    errors := [];
    if code in ["14", "01"] && weightKg > 68.0 {
      errors := errors + [OverweightForService(weightKg, name)];
    }
    if originState in ["AK", "HI"] || destinationState in ["AK", "HI"] {
      if code in ["14", "13"] {
        errors := errors + [RegionRestricted(name)];
      }
    }
  }

  /** Code 03 is UPS Ground. */
  lemma GroundServiceCode()
    ensures GetServiceByCode("03") == Some(Services()[5])
  {
    CatalogShape();
    FirstWithCode(Services(), "03", 5);
  }

  /** When service k has the code and no other service shares it, the
      lookup returns service k. */
  lemma FirstWithCode(ss: seq<Service>, code: string, k: nat)
    requires k < |ss| && ss[k].code == code
    requires forall i, j :: 0 <= i < j < |ss| ==> ss[i].code != ss[j].code
    ensures ServiceWithCode(ss, code) == Some(ss[k])
  {
    var r := ServiceWithCode(ss, code);
    var i :| 0 <= i < |ss| && ss[i] == r.value && forall j :: 0 <= j < i ==> ss[j].code != code;
    assert i == k;
  }

  datatype RouteError =
    | InvalidOriginZip(zip: string)
    | InvalidDestinationZip(zip: string)
    | SameZip

  /** validate_route_feasibility */
  method ValidateRouteFeasibility(originZip: string, destinationZip: string)
    returns (ok: bool, errors: seq<RouteError>)
    ensures ok <==> errors == []
    ensures ok <==> MatchesZipPattern(originZip) && MatchesZipPattern(destinationZip) && originZip != destinationZip
    ensures InvalidOriginZip(originZip) in errors <==> !MatchesZipPattern(originZip)
    ensures InvalidDestinationZip(destinationZip) in errors <==> !MatchesZipPattern(destinationZip)
    ensures SameZip in errors <==> originZip == destinationZip
    ensures |errors| <= 3
  {
    errors := [];
    if !MatchesZipPattern(originZip) {
      errors := errors + [InvalidOriginZip(originZip)];
    }
    if !MatchesZipPattern(destinationZip) {
      errors := errors + [InvalidDestinationZip(destinationZip)];
    }
    if originZip == destinationZip {
      errors := errors + [SameZip];
    }
    ok := |errors| == 0;
  }

  /** Nine-digit ZIPs are accepted; four digits or a letter are not. */
  lemma ZipPatternExamples()
    ensures MatchesZipPattern("10001") && MatchesZipPattern("90210-1234")
    ensures !MatchesZipPattern("1000") && !MatchesZipPattern("1000A") && !MatchesZipPattern("10001-12")
  {
    assert !ZipCore("1000A") by { assert !IsDigit("1000A"[4]); }
  }
}
